/** The tabular Q-learning agent `BlackJackAgent`: a table from state keys to
    a {Hit, Stand} value pair, an exploration rate that decays towards a floor,
    an epsilon-greedy policy and the one-step Q-learning update. */
module QLearning {
  import opened SortedItems
  import HandEvaluator

  datatype Option<T> = None | Some(value: T)

  /** The two learnable actions. */
  datatype Action = Hit | Stand

  /** What the policy answers: a learnable action, or `'BlackJack'`. */
  datatype Decision = BlackJack | Play(action: Action)

  /** A state record as callers build it: the composition dict (items in
      insertion order), the soft flag, the hand total and the dealer's token. */
  datatype State = State(hand: seq<Item>, soft: bool, handValue: int, dealerCard: string)

  /** The hashable table key: the composition as a sorted tuple of items,
      then the other three fields unchanged. */
  datatype Key = Key(hand: seq<Item>, soft: bool, handValue: int, dealerCard: string)

  /** `state_to_key`: the composition's items sorted, the rest copied. */
  function StateToKey(s: State): (k: Key)
    ensures Sorted(k.hand) && multiset(k.hand) == multiset(s.hand)
    ensures k.soft == s.soft && k.handValue == s.handValue && k.dealerCard == s.dealerCard
  {
    Key(Sort(s.hand), s.soft, s.handValue, s.dealerCard)
  }

  /** Two states share a key exactly when their compositions hold the same
      items, in whatever insertion order, and the other three fields agree. */
  lemma KeyEqualIff(s: State, t: State)
    ensures StateToKey(s) == StateToKey(t) <==>
      && multiset(s.hand) == multiset(t.hand)
      && s.soft == t.soft && s.handValue == t.handValue && s.dealerCard == t.dealerCard
  {
    if multiset(s.hand) == multiset(t.hand) {
      SortedUnique(StateToKey(s).hand, StateToKey(t).hand);
    }
  }

  /** For dicts (no key twice): two states share a key exactly when their
      composition dicts compare equal and the other three fields agree. */
  lemma DictKeyEqualIff(s: State, t: State)
    requires DistinctKeys(s.hand) && DistinctKeys(t.hand)
    ensures StateToKey(s) == StateToKey(t) <==>
      && ToMap(s.hand) == ToMap(t.hand)
      && s.soft == t.soft && s.handValue == t.handValue && s.dealerCard == t.dealerCard
  {
    EqualDictsIff(s.hand, t.hand);
    KeyEqualIff(s, t);
  }

  /** The value pair `{'Hit': hit, 'Stand': stand}`. */
  datatype QValues = QValues(hit: real, stand: real)
  {
    function Get(a: Action): real
    {
      match a
      case Hit => hit
      case Stand => stand
    }

    function Set(a: Action, v: real): (q: QValues)
      ensures q.Get(a) == v && q.Get(Other(a)) == Get(Other(a))
    {
      match a
      case Hit => QValues(v, stand)
      case Stand => QValues(hit, v)
    }
  }

  function Other(a: Action): Action
  {
    if a == Hit then Stand else Hit
  }

  /** The pair a state gets on first sight. */
  const Zero := QValues(0.0, 0.0)

  type Table = map<Key, QValues>

  /** The pair the table holds for `k`, or the zero pair it would be given. */
  function Lookup(t: Table, k: Key): QValues
  {
    if k in t then t[k] else Zero
  }

  /** `max(pair, key=pair.get)` over the pair in its order Hit, Stand: the
      first action of greatest value, so Hit on a tie. */
  function Greedy(q: QValues): (a: Action)
    ensures q.Get(a) >= q.hit && q.Get(a) >= q.stand
    ensures a == Stand <==> q.stand > q.hit
  {
    if q.stand > q.hit then Stand else Hit
  }

  /** The larger of the two values. */
  function MaxValue(q: QValues): real
  {
    if q.hit >= q.stand then q.hit else q.stand
  }

  /** Lazy zero-initialisation: `k` gets the zero pair when it is absent. */
  function Materialize(t: Table, k: Key): (r: Table)
    ensures r.Keys == t.Keys + {k}
    ensures forall j :: j in t ==> r[j] == t[j]
    ensures r[k] == Lookup(t, k)
  {
    if k in t then t else t[k := Zero]
  }

  /** One Q-learning step for a value `current`: move it by `alpha` towards
      `reward + gamma * next`. */
  function TdStep(current: real, alpha: real, reward: real, gamma: real, next: real): real
  {
    current + alpha * (reward + gamma * next - current)
  }

  /** The table after `update_q_value(state, action, reward, next_state)`,
      with `sk` and `nk` the keys of the two states. */
  function QLearn(t: Table, sk: Key, action: Option<Action>, reward: real, nk: Key,
                  alpha: real, gamma: real): (r: Table)
    ensures r.Keys == t.Keys + {sk} + (if action.Some? then {nk} else {})
    ensures forall k :: k in t && k != sk ==> r[k] == t[k]
    ensures action.None? ==> r[sk] == Lookup(t, sk)
  {
    match action
    case None => Materialize(t, sk)
    case Some(a) =>
      var learned := TdStep(Lookup(t, sk).Get(a), alpha, reward, gamma, MaxValue(Lookup(t, nk)));
      Materialize(Materialize(t, sk), nk)[sk := Lookup(t, sk).Set(a, learned)]
  }

  /** Without an action the only possible change is a zero pair for `sk`:
      `nk` is not added and no existing pair changes. */
  lemma QLearnWithoutAction(t: Table, sk: Key, reward: real, nk: Key, alpha: real, gamma: real)
    ensures var r := QLearn(t, sk, None, reward, nk, alpha, gamma);
      && r.Keys == t.Keys + {sk}
      && (forall k :: k in t ==> r[k] == t[k])
      && r[sk] == Lookup(t, sk)
      && (nk !in t && nk != sk ==> nk !in r)
  {
  }

  /** With an action `a` both keys are present afterwards; the one cell
      (sk, a) moves by alpha times the temporal-difference error computed
      from the values held before the write, and every other cell and key
      keeps its value. */
  lemma QLearnWithAction(t: Table, sk: Key, a: Action, reward: real, nk: Key, alpha: real, gamma: real)
    ensures var r := QLearn(t, sk, Some(a), reward, nk, alpha, gamma);
      var current := Lookup(t, sk).Get(a);
      && r.Keys == t.Keys + {sk, nk}
      && r[sk].Get(a) == current + alpha * (reward + gamma * MaxValue(Lookup(t, nk)) - current)
      && r[sk].Get(Other(a)) == Lookup(t, sk).Get(Other(a))
      && (forall k :: k in t && k != sk ==> r[k] == t[k])
      && (nk != sk ==> r[nk] == Lookup(t, nk))
  {
  }

  /** A terminal one-step episode (`nk == sk`) on the action that is greedy
      there multiplies the distance from the value to reward / (1 - gamma) by
      the factor 1 - alpha * (1 - gamma). */
  lemma TerminalUpdateContraction(t: Table, k: Key, a: Action, reward: real, alpha: real, gamma: real)
    requires gamma != 1.0
    requires Lookup(t, k).Get(a) == MaxValue(Lookup(t, k))
    ensures var target := reward / (1.0 - gamma);
      QLearn(t, k, Some(a), reward, k, alpha, gamma)[k].Get(a) - target
        == (1.0 - alpha * (1.0 - gamma)) * (Lookup(t, k).Get(a) - target)
  {
  }

  function Abs(x: real): real
  {
    if x < 0.0 then -x else x
  }

  /** With a learning rate in (0, 1] and a discount in [0, 1), that factor
      lies in [0, 1): a terminal update on the greedy action never moves the
      value away from reward / (1 - gamma), and strictly closer unless it is
      already there. */
  lemma TerminalUpdateConverges(t: Table, k: Key, a: Action, reward: real, alpha: real, gamma: real)
    requires 0.0 < alpha <= 1.0 && 0.0 <= gamma < 1.0
    requires Lookup(t, k).Get(a) == MaxValue(Lookup(t, k))
    ensures 0.0 <= 1.0 - alpha * (1.0 - gamma) < 1.0
    ensures var target := reward / (1.0 - gamma);
      var before := Lookup(t, k).Get(a) - target;
      var after := QLearn(t, k, Some(a), reward, k, alpha, gamma)[k].Get(a) - target;
      && Abs(after) <= Abs(before)
      && (before != 0.0 ==> Abs(after) < Abs(before))
  {
    TerminalUpdateContraction(t, k, a, reward, alpha, gamma);
    ScaledDistance(1.0 - alpha * (1.0 - gamma), Lookup(t, k).Get(a) - reward / (1.0 - gamma));
  }

  /** Scaling by a factor in [0, 1) never lengthens a distance and strictly
      shortens a non-zero one. */
  lemma ScaledDistance(f: real, x: real)
    requires 0.0 <= f < 1.0
    ensures Abs(f * x) <= Abs(x)
    ensures x != 0.0 ==> Abs(f * x) < Abs(x)
  {
    if x < 0.0 {
      assert f * x == -(f * -x);
    }
  }

  /** The bust episode: from an empty table with alpha 0.5 and gamma 0.8,
      a Hit that busts (reward -20, next state the same) leaves Hit at -10
      and Stand at 0, so the greedy action becomes Stand. */
  lemma BustExample(k: Key)
    ensures QLearn(map[], k, Some(Hit), -20.0, k, 0.5, 0.8)[k] == QValues(-10.0, 0.0)
    ensures Greedy(QLearn(map[], k, Some(Hit), -20.0, k, 0.5, 0.8)[k]) == Stand
  {
  }

  /** `max(epsilon_min, epsilon * epsilon_decay)`. */
  function Decayed(epsilon: real, epsilonMin: real, epsilonDecay: real): (e: real)
    ensures e >= epsilonMin && e >= epsilon * epsilonDecay
    ensures e == epsilonMin || e == epsilon * epsilonDecay
  {
    if epsilonMin >= epsilon * epsilonDecay then epsilonMin else epsilon * epsilonDecay
  }

  /** From the floor or above, with a factor in [0, 1], decay never raises
      epsilon. */
  lemma DecayNonIncreasing(epsilon: real, epsilonMin: real, epsilonDecay: real)
    requires 0.0 <= epsilonDecay <= 1.0 && 0.0 <= epsilon && epsilonMin <= epsilon
    ensures Decayed(epsilon, epsilonMin, epsilonDecay) <= epsilon
  {
  }

  /** Below the floor, decay raises epsilon to the floor. */
  lemma DecayRaisesToFloor(epsilon: real, epsilonMin: real, epsilonDecay: real)
    requires 0.0 <= epsilonDecay <= 1.0 && 0.0 <= epsilon < epsilonMin
    ensures Decayed(epsilon, epsilonMin, epsilonDecay) == epsilonMin > epsilon
  {
  }

  /** At the floor decay is idempotent. */
  lemma DecayFixedAtFloor(epsilonMin: real, epsilonDecay: real)
    requires 0.0 <= epsilonDecay <= 1.0 && 0.0 <= epsilonMin
    ensures Decayed(epsilonMin, epsilonMin, epsilonDecay) == epsilonMin
  {
  }

  /** The two-card-21 test: the composition mapping has exactly two entries
      and the total is 21. */
  predicate LooksLikeBlackJack(s: State)
  {
    |s.hand| == 2 && s.handValue == 21
  }

  /** `get_action` as a function of the table, epsilon, the state and the two
      random draws (`u` from `uniform(0, 1)`, `coin` from `choice`): the
      decision and the table afterwards. */
  function Policy(t: Table, epsilon: real, s: State, u: real, coin: Action): (r: (Decision, Table))
    ensures r.0 == BlackJack <==> LooksLikeBlackJack(s)
    ensures r.1.Keys <= t.Keys + {StateToKey(s)}
    ensures forall j :: j in t ==> j in r.1 && r.1[j] == t[j]
  {
    if LooksLikeBlackJack(s) then (BlackJack, t)
    else if u < epsilon then (Play(coin), t)
    else
      var k := StateToKey(s);
      var t' := Materialize(t, k);
      (Play(Greedy(t'[k])), t')
  }

  /** `'BlackJack'` comes back exactly for two-entry, 21-valued states, for
      every epsilon and draw, and then the table is untouched. */
  lemma PolicyBlackJackIff(t: Table, epsilon: real, s: State, u: real, coin: Action)
    ensures Policy(t, epsilon, s, u, coin).0 == BlackJack <==> LooksLikeBlackJack(s)
    ensures LooksLikeBlackJack(s) ==> Policy(t, epsilon, s, u, coin).1 == t
  {
  }

  /** Exploration returns the coin and leaves the table alone; exploitation
      returns the greedy action of the state's pair and leaves that pair as it
      was, adding the zero pair when the key was absent. */
  lemma PolicyExploreOrExploit(t: Table, epsilon: real, s: State, u: real, coin: Action)
    requires !LooksLikeBlackJack(s)
    ensures u < epsilon ==> Policy(t, epsilon, s, u, coin) == (Play(coin), t)
    ensures u >= epsilon ==>
      var k := StateToKey(s);
      && Policy(t, epsilon, s, u, coin).0 == Play(Greedy(Lookup(t, k)))
      && Policy(t, epsilon, s, u, coin).1.Keys == t.Keys + {k}
      && (forall j :: j in t ==> Policy(t, epsilon, s, u, coin).1[j] == t[j])
      && Policy(t, epsilon, s, u, coin).1[k] == Lookup(t, k)
  {
  }

  /** With epsilon 0 the policy never explores. */
  lemma NoExplorationAtZero(t: Table, s: State, u: real, coin: Action)
    requires 0.0 <= u
    ensures Policy(t, 0.0, s, u, coin).0 in {BlackJack, Play(Greedy(Lookup(t, StateToKey(s))))}
  {
  }

  /** States whose composition comes from the hand evaluator carry 13 entries,
      so the two-entry test never fires for them: the policy never answers
      `'BlackJack'` on such a state, even for a two-card 21. */
  lemma EvaluatorStatesNeverBlackJack(cards: seq<HandEvaluator.Rank>, t: Table, epsilon: real,
                                      s: State, u: real, coin: Action)
    requires s.hand == HandEvaluator.Composition(cards)
    ensures Policy(t, epsilon, s, u, coin).0 != BlackJack
  {
  }

  /** `BlackJackAgent`. The hyper-parameters are fixed at construction; the
      table and epsilon change. */
  class Agent {
    var table: Table
    var epsilon: real
    const epsilonMin: real
    const epsilonDecay: real
    const alpha: real
    const gamma: real

    /** `__init__`, with the persisted table already read: `stored` is its
        content, or `None` when there is no file. The hyper-parameters default
        as in the source. */
    constructor (stored: Option<Table>, epsilon: real := 1.0, epsilonMin: real := 0.1,
                 epsilonDecay: real := 0.995, alpha: real := 0.5, gamma: real := 0.8)
      ensures this.epsilon == epsilon && this.epsilonMin == epsilonMin
      ensures this.epsilonDecay == epsilonDecay && this.alpha == alpha && this.gamma == gamma
      ensures table == if stored.Some? then stored.value else map[]
    {
      this.epsilon := epsilon;
      this.epsilonMin := epsilonMin;
      this.epsilonDecay := epsilonDecay;
      this.alpha := alpha;
      this.gamma := gamma;
      table := if stored.Some? then stored.value else map[];
    }

    /** `load_q_table`: the stored table replaces the current one; a missing
        file gives the empty table. */
    method LoadTable(stored: Option<Table>)
      modifies this`table
      ensures table == if stored.Some? then stored.value else map[]
    {
      match stored {
        case Some(saved) => table := saved;
        case None => table := map[];
      }
    }

    /** `best_action`: materialise the state's pair, then pick greedily. */
    method BestAction(s: State) returns (a: Action)
      modifies this`table
      ensures table == Materialize(old(table), StateToKey(s))
      ensures a == Greedy(Lookup(old(table), StateToKey(s)))
    {
      var k := StateToKey(s);
      if k !in table {
        table := table[k := Zero];
      }
      a := Greedy(table[k]);
    }

    /** `update_q_value`. */
    method UpdateQValue(s: State, action: Option<Action>, reward: real, next: State)
      modifies this`table
      ensures table == QLearn(old(table), StateToKey(s), action, reward, StateToKey(next), alpha, gamma)
    {
      var sk := StateToKey(s);
      var nk := StateToKey(next);
      if sk !in table {
        table := table[sk := Zero];
      }
      assert table == Materialize(old(table), sk);
      if action.None? {
        return;
      }
      if nk !in table {
        table := table[nk := Zero];
      }
      assert table == Materialize(Materialize(old(table), sk), nk);
      var best := BestAction(next);
      var a := action.value;
      var current := table[sk].Get(a);
      table := table[sk := table[sk].Set(a, TdStep(current, alpha, reward, gamma, table[nk].Get(best)))];
    }

    /** `decay_epsilon`. */
    method DecayEpsilon()
      modifies this`epsilon
      ensures epsilon == Decayed(old(epsilon), epsilonMin, epsilonDecay)
    {
      epsilon := Decayed(epsilon, epsilonMin, epsilonDecay);
    }

    /** `get_action`, with the draw of `uniform(0, 1)` as `u` and the draw of
        `choice(['Hit', 'Stand'])` as `coin`. */
    method GetAction(s: State, u: real, coin: Action) returns (d: Decision)
      requires 0.0 <= u <= 1.0
      modifies this`table
      ensures (d, table) == Policy(old(table), epsilon, s, u, coin)
    {
      if LooksLikeBlackJack(s) {
        return BlackJack;
      }
      if u < epsilon {
        return Play(coin);
      }
      var a := BestAction(s);
      d := Play(a);
    }
  }

  /** The bust episode run through the agent: a fresh agent with epsilon 0,
      alpha 0.5 and gamma 0.8 learns Hit = -10, Stand = 0 for the state and
      then chooses Stand whatever the draws. */
  method BustThenStand(s: State, u: real, coin: Action) returns (learned: QValues, d: Decision)
    requires !LooksLikeBlackJack(s)
    requires 0.0 <= u <= 1.0
    ensures learned == QValues(-10.0, 0.0) && d == Play(Stand)
  {
    var agent := new Agent(None, 0.0);
    agent.UpdateQValue(s, Some(Hit), -20.0, s);
    BustExample(StateToKey(s));
    learned := agent.table[StateToKey(s)];
    d := agent.GetAction(s, u, coin);
  }
}
