/** The hand evaluator `calculate_hand_value`: from the ranks of a hand to its
    total, its soft flag and its rank composition (a 13-entry dict). */
module HandEvaluator {
  import opened SortedItems

  /** Face value of a numeral card. */
  type PipValue = n: int | 2 <= n <= 10 witness 2

  /** A card's rank; suits play no part. */
  datatype Rank = Number(pips: PipValue) | King | Queen | Jack | Ace

  /** The token a card carries in its `number` field. */
  function Token(r: Rank): string
  {
    match r
    case Number(n) => if n == 10 then "10" else [('0' as int + n) as char]
    case King => "K"
    case Queen => "Q"
    case Jack => "J"
    case Ace => "A"
  }

  /** The keys of the composition dict in the order they are inserted:
      '2' to '10', then 'K', 'Q', 'J', 'A'. */
  const CompositionOrder: seq<Rank> :=
    [Number(2), Number(3), Number(4), Number(5), Number(6), Number(7), Number(8),
     Number(9), Number(10), King, Queen, Jack, Ace]

  const CompositionKeys: seq<string> :=
    ["2", "3", "4", "5", "6", "7", "8", "9", "10", "K", "Q", "J", "A"]

  /** The slot of the composition dict that holds `r`'s count. */
  function RankIndex(r: Rank): (i: nat)
    ensures i < |CompositionOrder| && CompositionOrder[i] == r
  {
    match r
    case Number(n) => n as int - 2
    case King => 9
    case Queen => 10
    case Jack => 11
    case Ace => 12
  }

  /** What a card adds in the first pass: 10 for a face card, the pips for
      a numeral, nothing for an ace (aces are resolved afterwards). */
  function NonAceValue(r: Rank): nat
  {
    match r
    case Number(n) => n as nat
    case Ace => 0
    case _ => 10
  }

  /** Sum of the non-ace cards. */
  function Base(cards: seq<Rank>): nat
  {
    if cards == [] then 0
    else Base(cards[..|cards| - 1]) + NonAceValue(cards[|cards| - 1])
  }

  /** Number of occurrences of `r` in the hand. */
  function Count(cards: seq<Rank>, r: Rank): nat
  {
    if cards == [] then 0
    else Count(cards[..|cards| - 1], r) + (if cards[|cards| - 1] == r then 1 else 0)
  }

  /** The total in closed form: with an ace and a non-ace sum of at most 10,
      the first ace counts 11 and every other ace 1; otherwise every ace
      counts 1. */
  function HandTotal(cards: seq<Rank>): nat
  {
    var base, aces := Base(cards), Count(cards, Ace);
    if aces >= 1 && base <= 10 then base + aces + 10 else base + aces
  }

  /** The literal soft rule: an ace is present and the total is at most 21. */
  predicate IsSoft(cards: seq<Rank>)
  {
    Count(cards, Ace) > 0 && HandTotal(cards) <= 21
  }

  /** The composition dict: every rank key in insertion order with its count. */
  function Composition(cards: seq<Rank>): seq<Item>
  {
    seq(|CompositionOrder|, i requires 0 <= i < |CompositionOrder| =>
      (Token(CompositionOrder[i]), Count(cards, CompositionOrder[i]) as int))
  }

  /** Adding one card bumps exactly the count in that card's slot. */
  lemma CompositionStep(cards: seq<Rank>, c: Rank)
    ensures var comp, k := Composition(cards), RankIndex(c);
            Composition(cards + [c]) == comp[k := (comp[k].0, comp[k].1 + 1)]
  {
  }

  /** `calculate_hand_value`: one pass that counts ranks and sums the
      non-ace cards, then one greedy step per ace. */
  method CalculateHandValue(cards: seq<Rank>) returns (value: int, soft: bool, composition: seq<Item>)
    ensures value == HandTotal(cards)
    ensures soft <==> Count(cards, Ace) > 0 && value <= 21
    ensures composition == Composition(cards)
  {
    value := 0;
    var aces := 0;
    composition := seq(|CompositionOrder|, i requires 0 <= i < |CompositionOrder| =>
      (Token(CompositionOrder[i]), 0));

    for i := 0 to |cards|
      invariant value == Base(cards[..i])
      invariant aces == Count(cards[..i], Ace)
      invariant composition == Composition(cards[..i])
    {
      var card := cards[i];
      assert cards[..i + 1] == cards[..i] + [card];
      CompositionStep(cards[..i], card);
      var slot := RankIndex(card);
      composition := composition[slot := (composition[slot].0, composition[slot].1 + 1)];
      match card {
        case King | Queen | Jack => value := value + 10;
        case Ace => aces := aces + 1;
        case Number(n) => value := value + n as int;
      }
    }
    assert cards[..|cards|] == cards;

    ghost var base := value;
    for j := 0 to aces
      invariant value == if j >= 1 && base <= 10 then base + j + 10 else base + j
    {
      if value + 11 <= 21 {
        value := value + 11;
      } else {
        value := value + 1;
      }
    }

    soft := aces > 0 && value <= 21;
  }

  /** The count in each slot is that rank's multiplicity in the hand. */
  lemma {:induction false} CountIsMultiplicity(cards: seq<Rank>, r: Rank)
    ensures Count(cards, r) == multiset(cards)[r]
  {
    if cards != [] {
      var init := cards[..|cards| - 1];
      CountIsMultiplicity(init, r);
      assert cards == init + [cards[|cards| - 1]];
    }
  }

  /** The composition has the 13 keys '2'..'10', 'K', 'Q', 'J', 'A' in that
      order, each holding its rank's multiplicity in the hand. */
  lemma CompositionShape(cards: seq<Rank>)
    ensures |Composition(cards)| == |CompositionKeys| == 13
    ensures forall i :: 0 <= i < 13 ==>
      Composition(cards)[i] == (CompositionKeys[i], multiset(cards)[CompositionOrder[i]])
  {
    forall i | 0 <= i < 13
      ensures Composition(cards)[i] == (CompositionKeys[i], multiset(cards)[CompositionOrder[i]])
    {
      CountIsMultiplicity(cards, CompositionOrder[i]);
    }
  }

  /** Hands holding the same cards in any order have the same composition. */
  lemma CompositionOrderIndependent(a: seq<Rank>, b: seq<Rank>)
    requires multiset(a) == multiset(b)
    ensures Composition(a) == Composition(b)
  {
    forall i | 0 <= i < |CompositionOrder|
      ensures Composition(a)[i] == Composition(b)[i]
    {
      CountIsMultiplicity(a, CompositionOrder[i]);
      CountIsMultiplicity(b, CompositionOrder[i]);
    }
  }

  /** Sum of the counts held by a dict (`sum(hand.values())`). */
  function SumCounts(items: seq<Item>): int
  {
    if items == [] then 0 else SumCounts(items[..|items| - 1]) + items[|items| - 1].1
  }

  lemma {:induction false} SumCountsBump(items: seq<Item>, k: nat)
    requires k < |items|
    ensures SumCounts(items[k := (items[k].0, items[k].1 + 1)]) == SumCounts(items) + 1
  {
    var bumped := items[k := (items[k].0, items[k].1 + 1)];
    var n := |items| - 1;
    if k < n {
      SumCountsBump(items[..n], k);
      assert bumped[..n] == items[..n][k := (items[k].0, items[k].1 + 1)];
    } else {
      assert bumped[..n] == items[..n];
    }
  }

  /** The counts of the composition add up to the number of cards. */
  lemma {:induction false} CountsSumToLength(cards: seq<Rank>)
    ensures SumCounts(Composition(cards)) == |cards|
  {
    if cards == [] {
      var comp := Composition(cards);
      assert forall j :: 0 <= j <= 13 ==> SumCounts(comp[..j]) == 0 by {
        forall j | 0 <= j <= 13 ensures SumCounts(comp[..j]) == 0 {
          SumCountsZero(comp, j);
        }
      }
      assert comp[..13] == comp;
    } else {
      var init, c := cards[..|cards| - 1], cards[|cards| - 1];
      assert cards == init + [c];
      CountsSumToLength(init);
      CompositionStep(init, c);
      SumCountsBump(Composition(init), RankIndex(c));
    }
  }

  lemma {:induction false} SumCountsZero(items: seq<Item>, j: nat)
    requires j <= |items|
    requires forall i :: 0 <= i < |items| ==> items[i].1 == 0
    ensures SumCounts(items[..j]) == 0
  {
    if j > 0 {
      SumCountsZero(items, j - 1);
      assert items[..j][..j - 1] == items[..j - 1];
    }
  }

  /** Sum of the non-ace values read from the first `n` slots of a
      composition. */
  function PipSum(comp: seq<Item>, n: nat): int
    requires n <= |comp| && n <= |CompositionOrder|
  {
    if n == 0 then 0
    else PipSum(comp, n - 1) + comp[n - 1].1 * NonAceValue(CompositionOrder[n - 1])
  }

  lemma {:induction false} PipSumBump(comp: seq<Item>, k: nat, n: nat)
    requires k < |comp| && n <= |comp| && n <= |CompositionOrder| && k < |CompositionOrder|
    ensures PipSum(comp[k := (comp[k].0, comp[k].1 + 1)], n)
         == PipSum(comp, n) + (if k < n then NonAceValue(CompositionOrder[k]) else 0)
  {
    if n > 0 {
      PipSumBump(comp, k, n - 1);
    }
  }

  /** The non-ace sum can be read off the composition. */
  lemma {:induction false} BaseFromComposition(cards: seq<Rank>)
    ensures Base(cards) == PipSum(Composition(cards), 13)
  {
    if cards == [] {
      PipSumZero(Composition(cards), 13);
    } else {
      var init, c := cards[..|cards| - 1], cards[|cards| - 1];
      assert cards == init + [c];
      BaseFromComposition(init);
      CompositionStep(init, c);
      PipSumBump(Composition(init), RankIndex(c), 13);
    }
  }

  lemma {:induction false} PipSumZero(comp: seq<Item>, n: nat)
    requires n <= |comp| && n <= |CompositionOrder|
    requires forall i :: 0 <= i < |comp| ==> comp[i].1 == 0
    ensures PipSum(comp, n) == 0
  {
    if n > 0 {
      PipSumZero(comp, n - 1);
    }
  }

  /** The total and the soft flag are determined by the composition alone;
      in particular they do not depend on the order of the cards. */
  lemma CompositionDeterminesTotal(a: seq<Rank>, b: seq<Rank>)
    requires Composition(a) == Composition(b)
    ensures HandTotal(a) == HandTotal(b) && IsSoft(a) == IsSoft(b)
  {
    BaseFromComposition(a);
    BaseFromComposition(b);
    assert Count(a, Ace) == Composition(a)[12].1;
  }

  /** Ace-free hands total the plain sum of their cards and are never soft. */
  lemma AceFreeHand(cards: seq<Rank>)
    requires Ace !in cards
    ensures HandTotal(cards) == Base(cards) && !IsSoft(cards)
  {
  }

  /** The conventional ace rule: one ace counts 11 when that keeps the whole
      hand at 21 or less. */
  function ConventionalTotal(cards: seq<Rank>): nat
  {
    var base, aces := Base(cards), Count(cards, Ace);
    if aces >= 1 && base + aces + 10 <= 21 then base + aces + 10 else base + aces
  }

  /** The greedy rule differs from the conventional one exactly when two or
      more aces meet a non-ace sum of at most 10 that the extra aces push past
      11; in every such hand the greedy total is a bust, 10 above the
      conventional one. */
  lemma GreedyVersusConventional(cards: seq<Rank>)
    ensures HandTotal(cards) != ConventionalTotal(cards) <==>
      Count(cards, Ace) >= 2 && Base(cards) <= 10 && Base(cards) + Count(cards, Ace) >= 12
    ensures HandTotal(cards) != ConventionalTotal(cards) ==>
      HandTotal(cards) > 21 && HandTotal(cards) == ConventionalTotal(cards) + 10
  {
  }

  /** A, A, 10 totals 22 and is not soft. */
  lemma AceAceTen()
    ensures HandTotal([Ace, Ace, Number(10)]) == 22
    ensures !IsSoft([Ace, Ace, Number(10)])
  {
    assert [Ace, Ace, Number(10)][..2] == [Ace, Ace];
    assert [Ace, Ace][..1] == [Ace];
    assert [Ace][..0] == [];
  }

  /** A, A, 9 totals 21 and is soft. */
  lemma AceAceNine()
    ensures HandTotal([Ace, Ace, Number(9)]) == 21
    ensures IsSoft([Ace, Ace, Number(9)])
  {
    assert [Ace, Ace, Number(9)][..2] == [Ace, Ace];
    assert [Ace, Ace][..1] == [Ace];
    assert [Ace][..0] == [];
  }

  /** Eleven aces: the first counts 11, the other ten count 1, so the hand
      totals 21 and is soft. */
  lemma ElevenAces()
    ensures HandTotal(seq(11, _ => Ace)) == 21
    ensures IsSoft(seq(11, _ => Ace))
  {
    var h := seq(11, _ => Ace);
    AllAces(h);
  }

  lemma {:induction false} AllAces(h: seq<Rank>)
    requires forall i :: 0 <= i < |h| ==> h[i] == Ace
    ensures Base(h) == 0 && Count(h, Ace) == |h|
  {
    if h != [] {
      AllAces(h[..|h| - 1]);
    }
  }
}
