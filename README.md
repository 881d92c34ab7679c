# Blackjack Q-learning agent: a Dafny model

This project models the core of a small Blackjack learner, `BlackJack.py`. The core has two parts.

- **The hand evaluator `calculate_hand_value`.** It takes the ranks of a hand and returns three things: the total, the soft flag, and the composition. The composition is a dict from each of the 13 rank tokens to its count.
- **The agent `BlackJackAgent`.** It keeps a Q-table that maps a state key to a `{Hit, Stand}` value pair, plus an exploration rate `epsilon`. Its operations are:
  - an epsilon-greedy choice (`get_action`);
  - a greedy lookup that adds missing entries lazily (`best_action`);
  - the one-step Q-learning update (`update_q_value`);
  - the conversion of a state into a hashable key (`state_to_key`);
  - the epsilon decay with a floor (`decay_epsilon`).

Files:

- `sorted_items.dfy` (module `SortedItems`): Python's ordering of `str` values and `(str, int)` tuples, and `sorted(d.items())` as an insertion sort. A dict is a sequence of items in insertion order. The file proves that the sorted tuple depends only on the dict's items, and that two dicts compare equal exactly when they hold the same items.
- `hand_evaluator.dfy` (module `HandEvaluator`): `calculate_hand_value` as a method with the source's two loops. It is proved against a closed-form total, the literal soft rule, and a composition defined by counting. The lemmas cover:
  - the shape of the composition;
  - independence from card order;
  - the counts summing to the number of cards;
  - the total and soft flag depending on the composition alone;
  - where the greedy ace rule departs from the conventional one.
- `agent.dfy` (module `QLearning`): the agent as a class. `table` is a `map` field and `epsilon` is a `real` field; both are reassigned by the methods. Each method is specified by a function:
  - `Materialize` for lazy zero-initialisation;
  - `QLearn` for the update;
  - `Decayed` for the decay;
  - `Policy` for `get_action`.

  Lemmas state what each of these functions changes and what it leaves alone.

Q-values, `alpha`, `gamma` and `epsilon` are `real`. The two random draws of `get_action` become parameters:

- `u` stands for `random.uniform(0, 1)`;
- `coin` stands for `random.choice(['Hit', 'Stand'])`.

Persisted storage is not modelled. The table that `load_q_table` would read is passed in as an `Option<Table>`, with `None` meaning the file is absent.

The model follows the code as written. Some of what it proves is worth noting:

- **Eleven aces.** The code counts the first ace as 11 and the other ten as 1. The hand therefore totals 21 and is soft (`ElevenAces`).
- **The greedy ace rule.** The docstring at BlackJack.py:79 says aces are treated "dynamically" as 1 or 11. The code gives each ace 11 when that keeps the running total at most 21, without looking at the aces still to come: the first ace counts 11 whenever the ace-free sum is at most 10, even when the later aces then bust the hand. `A, A, 10` totals 22 (`AceAceTen`), while conventional play (`ConventionalTotal`: as many aces at 11 as keep the total at most 21) gives 12. `GreedyVersusConventional` gives every hand where the two rules differ.
- **The BlackJack test in `get_action`.** The test is `len(state["hand"]) == 2`, which is the number of entries in the composition dict, not the number of cards. The evaluator always builds 13 entries. So `'BlackJack'` is never returned for a state built by the evaluator (`EvaluatorStatesNeverBlackJack`). The model keeps the test as written.
- **The epsilon range.** Decay keeps epsilon between `epsilon_min` and its initial value only when the initial value is at least `epsilon_min` (`DecayNonIncreasing`). An agent built with a smaller epsilon is raised to the floor by its first decay (`DecayRaisesToFloor`).

## Model

| member | source | states |
|---|---|---|
| `SortedItems.StrLessIrreflexive` | BlackJack.py:65 | Python's `<` on strings (code point by code point, a proper prefix first) never holds between a string and itself |
| `SortedItems.StrLessTransitive` | BlackJack.py:65 | Python's `<` on strings is transitive |
| `SortedItems.StrLessTotal` | BlackJack.py:65 | of two different strings, one is below the other |
| `SortedItems.ItemLessEqTransitive` | BlackJack.py:65 | Python's `<=` on `(str, int)` tuples (by key, then by value) is transitive |
| `SortedItems.ItemLessEqTotal` | BlackJack.py:65 | any two tuples are comparable |
| `SortedItems.ItemLessEqAntisymmetric` | BlackJack.py:65 | two tuples each `<=` the other are equal, so the tuple order is a total order and `sorted` has one answer |
| `SortedItems.Sort` | BlackJack.py:65 | `sorted(items)` returns the items in ascending order under Python's tuple order, and it is a permutation of its input |
| `SortedItems.SortedUnique` | BlackJack.py:65 | two ascending sequences that hold the same items are equal |
| `SortedItems.SortEqualIff` | BlackJack.py:65 | two item lists sort to the same tuple exactly when they hold the same items, in any order |
| `SortedItems.EqualDictsIff` | BlackJack.py:65 | for dicts (no key repeated), equality as dicts is the same as holding the same items, whatever the insertion order |
| `HandEvaluator.RankIndex` | BlackJack.py:83-87 | each rank has its own slot among the 13 composition keys, inserted in the order 2..10, K, Q, J, A |
| `HandEvaluator.CompositionStep` | BlackJack.py:86-87 | reading one more card adds 1 to that card's count and changes no other entry |
| `HandEvaluator.CalculateHandValue` | BlackJack.py:77-102 | the two loops return the closed-form total (non-ace sum plus aces, plus 10 when there is an ace and the non-ace sum is at most 10); soft holds iff there is an ace and the total is at most 21; the composition holds every rank's count |
| `HandEvaluator.CountIsMultiplicity` | BlackJack.py:86-87 | the count for a rank is its number of occurrences in the hand |
| `HandEvaluator.CompositionShape` | BlackJack.py:83-87 | the composition has exactly the 13 keys '2'..'10', 'K', 'Q', 'J', 'A' in insertion order, each holding that rank's multiplicity |
| `HandEvaluator.CompositionOrderIndependent` | BlackJack.py:83-87 | hands that hold the same cards in any order have the same composition |
| `HandEvaluator.CountsSumToLength` | BlackJack.py:83-87 | the composition's counts add up to the number of cards |
| `HandEvaluator.BaseFromComposition` | BlackJack.py:86-93 | the non-ace sum equals the sum of count times card value over the composition |
| `HandEvaluator.CompositionDeterminesTotal` | BlackJack.py:86-101 | hands with equal compositions have equal totals and equal soft flags |
| `HandEvaluator.AceFreeHand` | BlackJack.py:88-101 | a hand without aces totals the plain sum of its cards and is not soft |
| `HandEvaluator.GreedyVersusConventional` | BlackJack.py:95-99 | the greedy ace rule differs from the conventional one exactly when two or more aces meet a non-ace sum of at most 10 whose total with the aces is at least 12; in every such hand the greedy total is a bust, 10 above the conventional total |
| `HandEvaluator.AceAceTen` | BlackJack.py:95-101 | A, A, 10 totals 22 and is not soft |
| `HandEvaluator.AceAceNine` | BlackJack.py:95-101 | A, A, 9 totals 21 and is soft |
| `HandEvaluator.ElevenAces` | BlackJack.py:95-101 | eleven aces total 21 and the hand is soft |
| `QLearning.StateToKey` | BlackJack.py:60-69 | the key's composition is the state's items, sorted; soft, total and dealer card are copied |
| `QLearning.KeyEqualIff` | BlackJack.py:64-69 | two states get equal keys iff their compositions hold the same items, whatever the insertion order, and soft, total and dealer card are equal |
| `QLearning.DictKeyEqualIff` | BlackJack.py:64-69 | for dict compositions, states get equal keys iff the compositions are equal as dicts and the other three fields are equal |
| `QLearning.Greedy` | BlackJack.py:29 | the chosen action has the larger value; on a tie it is Hit, the first entry of the pair |
| `QLearning.Materialize` | BlackJack.py:27-28 | an absent key is added with the pair {Hit: 0, Stand: 0}; no other entry is added or changed |
| `QLearning.QLearn` | BlackJack.py:31-47 | the update adds the state's key, and the next state's key only when there is an action; every existing pair other than the state's is unchanged; with no action the state's pair is unchanged too |
| `QLearning.QLearnWithoutAction` | BlackJack.py:31-39 | with no action, the only possible change is a zero entry for the state's key; the next state's key is not added and no existing entry changes |
| `QLearning.QLearnWithAction` | BlackJack.py:41-47 | with action a, both keys are present afterwards; Q[s][a] becomes old + alpha * (reward + gamma * max(Q[s'][Hit], Q[s'][Stand]) - old), with all values read before the write; every other cell and key is unchanged |
| `QLearning.TerminalUpdateContraction` | BlackJack.py:44-47 | when the next state is the state itself and a is its greedy action, the distance from Q[s][a] to reward / (1 - gamma) is multiplied by the factor 1 - alpha * (1 - gamma) |
| `QLearning.TerminalUpdateConverges` | BlackJack.py:44-47 | with 0 < alpha <= 1 and 0 <= gamma < 1 that factor lies in [0, 1), so such an update never moves Q[s][a] away from reward / (1 - gamma), and moves it strictly closer unless it is already there |
| `QLearning.BustExample` | BlackJack.py:41-47 | from an empty table with alpha 0.5 and gamma 0.8, a bust update (Hit, reward -20, same state) gives Hit -10 and Stand 0, after which the greedy action is Stand |
| `QLearning.Decayed` | BlackJack.py:75 | the new epsilon is the larger of epsilon_min and epsilon * epsilon_decay, so it is never below epsilon_min |
| `QLearning.DecayNonIncreasing` | BlackJack.py:75 | from epsilon_min or above, with a decay factor in [0, 1], decay never raises epsilon |
| `QLearning.DecayRaisesToFloor` | BlackJack.py:75 | with a decay factor in [0, 1], a non-negative epsilon below the floor is raised to epsilon_min |
| `QLearning.DecayFixedAtFloor` | BlackJack.py:75 | with a decay factor in [0, 1], once epsilon equals a non-negative epsilon_min, further decays leave it unchanged |
| `QLearning.Policy` | BlackJack.py:16-29 | `get_action` answers 'BlackJack' iff the hand mapping has 2 entries and the total is 21; the table afterwards keeps every existing pair and gains at most the state's key |
| `QLearning.PolicyBlackJackIff` | BlackJack.py:16-18 | 'BlackJack' is returned iff the hand mapping has exactly 2 entries and the total is 21, whatever epsilon and the draws are, and then the table is untouched |
| `QLearning.PolicyExploreOrExploit` | BlackJack.py:20-23 | otherwise, a draw below epsilon returns the coin and leaves the table untouched; any other draw returns the greedy action of the state's pair, keeps that pair's values (the zero pair when the key was absent) and adds no other key |
| `QLearning.NoExplorationAtZero` | BlackJack.py:21-23 | with epsilon 0 the policy never explores |
| `QLearning.EvaluatorStatesNeverBlackJack` | BlackJack.py:17-18 | a state whose hand is a composition built by the evaluator has 13 entries, so it never gets 'BlackJack' |
| `QLearning.Agent.constructor` | BlackJack.py:6-14 | the hyper-parameters are stored, defaulting to epsilon 1.0, epsilon_min 0.1, epsilon_decay 0.995, alpha 0.5 and gamma 0.8; the table is the stored table, or empty when there is none |
| `QLearning.Agent.LoadTable` | BlackJack.py:53-58 | the stored table replaces the current one; a missing file gives the empty table |
| `QLearning.Agent.BestAction` | BlackJack.py:25-29 | the table becomes `Materialize` of the old table at the state's key, and the result is the greedy action of that key's pair |
| `QLearning.Agent.UpdateQValue` | BlackJack.py:31-47 | the table becomes `QLearn` of the old table, the two keys, the action, the reward, alpha and gamma |
| `QLearning.Agent.DecayEpsilon` | BlackJack.py:71-75 | epsilon becomes `Decayed` of its old value, epsilon_min and epsilon_decay |
| `QLearning.Agent.GetAction` | BlackJack.py:16-23 | the decision and the new table are those of `Policy` on the old table, epsilon, the state and the two draws |
| `QLearning.BustThenStand` | BlackJack.py:16-47 | a fresh agent with epsilon 0, alpha 0.5 and gamma 0.8 learns Hit -10, Stand 0 from one bust update, and then chooses Stand for any draws |

## Left out

- `save_q_table` (BlackJack.py:49-51): a pickle write to a file. The model has no file system, so there is no save/load round trip to state.
- `load_q_table` (BlackJack.py:53-58): the pickle read is abstracted to an `Option<Table>` parameter. A corrupt file, which raises from `pickle.load`, is not modelled.
- `get_player_cards` and `main` (BlackJack.py:104-189): interactive console input and output. Their reward constants are policy of the command-line game.
- `backend/app.py`: an HTTP wrapper around one shared agent. Its request validation, upper-casing of tokens and canned messages are plumbing. Concurrent requests on the shared agent are not modelled.
- Randomness: the draws of `random.uniform` and `random.choice` are parameters of `GetAction`. The random generator itself is not modelled.
- Floating point: Q-values and epsilon are exact reals. No claim is made about IEEE rounding.
- Malformed input:
  - Rank tokens outside the 13 valid ones cannot be expressed, because ranks are a datatype. In the source such a token raises a `KeyError` at BlackJack.py:87, before the `int()` at line 93, which only ever sees '2'..'10'.
  - Actions other than Hit, Stand or None (a `KeyError` in the update) are excluded by the `Option<Action>` type.
  - A state's `hand` is a sequence of items, so it can repeat a key, which no dict can do. Such a sequence stands for no dict, and on it `|s.hand|` is not `len(state["hand"])`. The dict results (`EqualDictsIff`, `DictKeyEqualIff`) require `DistinctKeys`.
- Hyper-parameters: `epsilon_min`, `epsilon_decay`, `alpha` and `gamma` are attributes in the source, but no method assigns them. The model makes them `const` fields.
- The integer 0 that the source stores for a new pair is the real 0.0 here.
