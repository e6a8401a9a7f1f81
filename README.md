# I Luv Suits simulator, modelled in Dafny

The simulator (`src/App.tsx`) plays "I Luv Suits" poker many times and totals the results. Each
hand goes like this:

1. A fresh 52-card deck is built and shuffled with Fisher-Yates.
2. The player gets the first seven cards and the dealer the next seven.
3. Each side's longest flush is found, and so is the player's longest straight flush.
4. The player's strategy sets the play wager (zero means fold).
5. The dealer qualifies with a flush of three or more cards that includes a nine or better.
6. Flushes compare by length first, then card by card from the highest value down.
7. Two bonus bets are settled: Flush Rush, paid on the flush length, and Super Flush Rush, paid on
   the straight-flush length.
8. Three-card flushes that the strategy plays are also counted, keyed by their two highest ranks.

After the last hand, those counters are listed by descending high cards.

The modules follow the source's functions:

- `Cards`: ranks, suits, `getRankValue` and `createDeck`.
- `Shuffle`: `shuffleDeck`.
- `Sorting`: the stable `Array.prototype.sort` with a numeric comparator, which the source calls
  in four functions (nine calls).
- `Flush`: the suit dictionary and `findLongestFlush`.
- `StraightFlush`: `findLongestStraightFlush`.
- `Showdown`: `dealerQualifies` and `compareFlushes`.
- `Wagers`: `getOptimalPlayWager`, the two payout lookups, and the default configuration.
- `Ledger`: the accumulators of `simulateHands` (`betTotals` and `threeCardStats`), the state of a
  run, and the invariants a run keeps (`BaseSound`, `BonusSound`, `StatsSound`, `Sound`).
- `Simulation`: the loop body and the hand loop of `simulateHands`, the listing of the three-card
  statistics, and the proofs that a run keeps the `Ledger` invariants.
- `Seqs`: small facts about duplicate-free sequences.

Each imperative piece of the source is a method proved against a function:

- `CreateDeck` and its nested loops;
- `ShuffleDeck`, which swaps in an array copy;
- `GroupBySuit`, `FindLongestFlush` and `FindLongestStraightFlush`, with their running-best loops;
- `CompareFlushes`, with its early returns;
- the hand loop `PlayHands` and `SimulateHands`.

The properties are lemmas about those functions.

Modelling choices:

- The random source is an input. `draws[k]` is the random index `j` drawn at the step where
  `i == n - 1 - k`. `ValidDraws` requires every such index to lie in `[0, i]`, which is the range
  the source's random draw can produce.
- Iterating over the suit dictionary (`for ... in`) visits the suits in insertion order. That is the
  order in which the suits first appear in the hand (`SuitOrder`, `SuitOrderByFirstAppearance`).
- The three-card key `` `${rank}-${rank}` `` becomes a pair of ranks. Its `split('-')` parsing
  becomes the pair's components.
- The listing's two-level comparator becomes the integer key `15 * value1 + value2`.
  `KeyRankOrder` proves that this key orders the keys the same way and that distinct keys never tie.
- Behaviour that follows the code even where the rules text (`src/App.tsx:76-100`) says otherwise:
  - When the dealer does not qualify, the code adds only the ante to `totalWon`
    (`src/App.tsx:340-343`). The rules text says "Ante pays even money, Play pushes", which would
    return more. The model follows the code (`SettleBase`, `DealerOutPaysAnteOnly`).
  - The wheel is the five cards A-5 that the code filters (`src/App.tsx:197`). It replaces an
    equally long run, so A-2-3-4-5-6 of one suit scores five cards, not six (`AceToSixIsFive`).

## Model

| member | source | states |
|---|---|---|
| Cards.RankValue | src/App.tsx:124-130 | the ace is worth 14 and is the only rank worth 14; every other rank is worth one more than its position in the deck's rank order (Two 2 through Ten 10, Jack 11, Queen 12, King 13) |
| Cards.RankValueInjective | src/App.tsx:124-130 | distinct ranks have distinct values, so comparing values compares ranks |
| Cards.CanonicalDeck | src/App.tsx:102-113 | reference definition of the built deck: position k holds rank k mod 13 of suit k div 13; its properties are the three lemmas below |
| Cards.CanonicalDeckNoDup | src/App.tsx:105-113 | the deck built suit by suit, rank by rank, holds no card twice |
| Cards.CanonicalDeckPosition | src/App.tsx:105-113 | card (r, s) sits at position 13 * index(s) + index(r): suit-major order |
| Cards.CanonicalDeckExactlyOnce | src/App.tsx:105-113 | every (rank, suit) pair occurs exactly once |
| Cards.CreateDeck | src/App.tsx:105-113 | the nested push loops produce the 52-card suit-major deck with every card exactly once |
| Shuffle.Swap | src/App.tsx:119 | the destructuring swap exchanges positions i and j and keeps every other position |
| Shuffle.SwapPermutes | src/App.tsx:119 | a swap keeps the multiset of cards |
| Shuffle.ShuffleFromPermutes | src/App.tsx:117-120 | the remaining swap steps keep length and multiset |
| Shuffle.FisherYates | src/App.tsx:115-122 | reference definition of the shuffle: the swap steps from the last position down to position 1; its properties are the lemmas below and `ShuffleDeck` is proved against it |
| Shuffle.FisherYatesPermutes | src/App.tsx:115-122 | the shuffle returns a permutation of its argument |
| Shuffle.ShuffleFromKeepsTop | src/App.tsx:117-120 | once the loop has passed position p, later steps never touch p |
| Shuffle.ShuffleFromInjective | src/App.tsx:117-120 | on distinct cards, equal results of the remaining steps imply equal draws for those steps |
| Shuffle.FisherYatesInjective | src/App.tsx:115-122 | on a deck without repeated cards, two draw sequences that give the same order agree on their first n - 1 entries, the only ones the shuffle uses |
| Shuffle.ShuffleDeck | src/App.tsx:115-122 | the in-place loop over the array copy computes the shuffle and returns a permutation; the argument is left as it was |
| Sorting.Insert | src/App.tsx:145 | one insertion step adds exactly the new element |
| Sorting.InsertBelow | src/App.tsx:145 | inserting keeps every key under a common bound |
| Sorting.InsertSorted | src/App.tsx:145 | inserting into a sorted sequence keeps it sorted |
| Sorting.SortDesc | src/App.tsx:145 | the comparator sort returns a permutation of its input, sorted by descending key |
| Sorting.SortDescMembers | src/App.tsx:145 | an element is in the sorted sequence exactly when it is in the input |
| Sorting.StrictlyDescUnique | src/App.tsx:165 | a sequence strictly ordered by key is determined by its elements |
| Flush.OfSuit | src/App.tsx:135-140 | one dictionary group holds only cards of its suit |
| Flush.OfSuitCounts | src/App.tsx:135-140 | a group holds each card of its suit exactly as often as the hand does, and no other card |
| Flush.OfSuitSubMultiset | src/App.tsx:135-140 | a group is part of the hand |
| Flush.SuitOrder | src/App.tsx:135-143 | the key order lists each suit once, exactly the suits that have cards |
| Flush.FirstIndex | src/App.tsx:135-140 | position of the first card of a suit, or the hand length when there is none |
| Flush.SuitOrderByFirstAppearance | src/App.tsx:135-143 | suits are visited in the order in which their first card appears in the hand |
| Flush.BestSuitIndexFirstLargest | src/App.tsx:143-147 | the suit kept by the strict `>` scan has a largest group, and no earlier suit's group is as large |
| Flush.BestFlushAmongKeeps | src/App.tsx:143-147 | the scan ends holding the sorted group of that suit |
| Flush.LongestFlush | src/App.tsx:132-150 | reference definition of `findLongestFlush`: the scan over the suits in dictionary order keeping a strictly larger sorted group; its properties are the `LongestFlush...` lemmas |
| Flush.LongestFlushChosen | src/App.tsx:132-150 | for a non-empty hand the result is the sorted group of the first largest suit |
| Flush.LongestFlushIsSuitGroup | src/App.tsx:132-150 | the result is empty exactly for an empty hand; otherwise it is the whole group of one suit of the hand, sorted |
| Flush.LongestFlushIsLongest | src/App.tsx:143-147 | its length is the largest number of cards the hand holds in any suit |
| Flush.LongestFlushTieBreak | src/App.tsx:144 | a tie between suits goes to the suit that appears first in the hand |
| Flush.LongestFlushSorted | src/App.tsx:145 | values never increase along the flush, and strictly decrease when the hand repeats no card |
| Flush.GroupBySuit | src/App.tsx:133-140 | the `forEach` builds a group for exactly the suits present, in first-appearance order, each holding its cards in hand order |
| Flush.FindLongestFlush | src/App.tsx:132-150 | the method returns the longest flush |
| StraightFlush.RunAfter | src/App.tsx:172-183 | the inner scan collects cards of values cur + 1, cur + 2, ... in order |
| StraightFlush.RunAfterSubMultiset | src/App.tsx:172-183 | the inner scan only takes cards at or after its position |
| StraightFlush.RunFromSubMultiset | src/App.tsx:169-186 | the straight from a position is made of the suit's cards |
| StraightFlush.RunFromIsRun | src/App.tsx:169-186 | the straight from a position steps by exactly one in value |
| StraightFlush.WheelOf | src/App.tsx:197 | the filtered wheel is no longer than the suit |
| StraightFlush.WheelOfCounts | src/App.tsx:197 | the filter keeps exactly the A-5 cards, each as often as the suit has it |
| StraightFlush.WheelOfSubMultiset | src/App.tsx:197 | the wheel is made of the suit's cards |
| StraightFlush.BestRunUpTo | src/App.tsx:169-186 | reference definition of the positions loop: the straight from each start position replaces the running best when strictly longer; its properties are the `BestRunUpTo...` lemmas |
| StraightFlush.SuitStraight | src/App.tsx:164-201 | reference definition of one suit's pass: skipped below three cards, else the positions loop, then the wheel when it is at least as long; its properties are the `SuitStraight...` lemmas |
| StraightFlush.LongestStraightFlush | src/App.tsx:152-205 | reference definition of `findLongestStraightFlush`: the suit passes in dictionary order from an empty best; its properties are `StraightFlushFromHand`, `StraightFlushShape`, `StraightFlushIsLongest` and `StraightFlushFoundWhenThree` |
| StraightFlush.BestRunUpToWithin | src/App.tsx:169-186 | the running best is kept, or replaced by cards of the suit |
| StraightFlush.SuitStraightWithin | src/App.tsx:164-202 | a suit leaves the running best alone, or replaces it by cards of its own when it has three or more |
| StraightFlush.FromSuitGroup | src/App.tsx:165 | cards taken from a sorted suit group are cards of that suit of the hand |
| StraightFlush.StraightAmongFromOneSuit | src/App.tsx:164-202 | the running best is always empty or cards of one suit of which the hand holds three or more |
| StraightFlush.StraightFlushFromHand | src/App.tsx:152-205 | the straight flush is a same-suit part of the hand, never longer than the longest flush, from a suit with at least three cards |
| StraightFlush.BestRunUpToKeeps | src/App.tsx:184-186 | the running best never shrinks, and is non-empty once a start position was tried |
| StraightFlush.BestRunUpToCovers | src/App.tsx:184-186 | the running best is as long as the straight from every position tried |
| StraightFlush.SuitStraightKeeps | src/App.tsx:164-202 | a suit never shortens the running best, makes it non-empty when it has three cards, and is skipped when it has fewer |
| StraightFlush.SuitStraightCovers | src/App.tsx:169-186 | a suit's result is as long as the straight from each of its positions |
| StraightFlush.SuitStraightCoversWheel | src/App.tsx:195-201 | a suit holding the wheel yields a result at least as long as the wheel |
| StraightFlush.StraightFlushFoundWhenThree | src/App.tsx:164-202 | a suit with three or more cards makes the result non-empty (with StraightFlushFromHand: empty exactly when no suit has three cards) |
| StraightFlush.AscendingSuit | src/App.tsx:165 | the sorted group of a suit holds only that suit |
| StraightFlush.InSuitGroup | src/App.tsx:158-165 | every card of the hand lies in the sorted group of its suit |
| StraightFlush.AscendingStrict | src/App.tsx:165 | in a hand without repeated cards the sorted group strictly ascends in value |
| StraightFlush.StrictNoDup | src/App.tsx:165 | a strictly ascending group repeats no card |
| StraightFlush.BelowHead | src/App.tsx:165 | cards drawn from the tail of a strictly ascending group lie above its head |
| StraightFlush.WheelOfStrict | src/App.tsx:197 | filtering keeps the strict order |
| StraightFlush.WheelCardsStrict | src/App.tsx:197 | 2, 3, 4, 5, A strictly ascend in value |
| StraightFlush.WheelCardsCount | src/App.tsx:197 | the five wheel cards of a suit are each present once |
| StraightFlush.WheelCardsCounts | src/App.tsx:190-197 | on a strictly ascending suit holding the wheel, the filter keeps each wheel card once |
| StraightFlush.WheelOfSameCards | src/App.tsx:190-197 | the filtered wheel has exactly the five wheel cards as its multiset |
| StraightFlush.WheelExact | src/App.tsx:190-197 | the filtered wheel is exactly 2, 3, 4, 5, A of the suit |
| StraightFlush.BestRunUpToShaped | src/App.tsx:169-186 | the running best of runs stays a run or the wheel |
| StraightFlush.StraightAmongShaped | src/App.tsx:164-202 | across suits the running best stays a run or the wheel |
| StraightFlush.StraightFlushShape | src/App.tsx:152-205 | in a hand without repeated cards the result steps by exactly one, or is exactly A-5 of one suit |
| StraightFlush.RunAfterPicksUp | src/App.tsx:172-183 | on strictly ascending cards the greedy scan picks up every consecutive value that is present |
| StraightFlush.RunValueAt | src/App.tsx:172-183 | the k-th card of a run is k above the first |
| StraightFlush.RunCovered | src/App.tsx:169-186 | every same-suit run is matched by the scan from the position of its first card |
| StraightFlush.StraightAmongMonotone | src/App.tsx:164-202 | the running best only grows from suit to suit |
| StraightFlush.StraightAmongAt | src/App.tsx:164-202 | each suit's candidates are bounded by the final result |
| StraightFlush.StraightFlushIsLongest | src/App.tsx:152-205 | in a hand without repeated cards, no same-suit run of consecutive values in a suit with three or more cards is longer than the result |
| StraightFlush.StraightFlushSeesWheel | src/App.tsx:189-201 | a hand holding A, 2, 3, 4 and 5 of one suit has a straight flush of at least five cards |
| StraightFlush.AceToSixBestRun | src/App.tsx:169-186 | on A-2-3-4-5-6 of one suit the scan's best run is 2-6, five cards |
| StraightFlush.AceToSixWheel | src/App.tsx:190-197 | the same cards hold the wheel, and the filter yields exactly A-5 |
| StraightFlush.AceToSixIsFive | src/App.tsx:169-201 | A-2-3-4-5-6 of one suit: the best run has five cards and the wheel, being as long, replaces it |
| StraightFlush.StraightAmongStep | src/App.tsx:164-202 | one more suit of the loop over suits |
| StraightFlush.ScanFrom | src/App.tsx:169-183 | the inner `while`, with its `break`, builds the straight from the position |
| StraightFlush.ScanSuit | src/App.tsx:167-201 | the positions loop and the wheel check of one suit compute that suit's effect on the running best |
| StraightFlush.FindLongestStraightFlush | src/App.tsx:152-205 | the method returns the longest straight flush |
| Showdown.MaxValue | src/App.tsx:211 | the maximum is the value of some card and no card exceeds it |
| Showdown.DealerQualifies | src/App.tsx:207-213 | true exactly when the flush has three or more cards and one of them is worth nine or more |
| Showdown.Compare | src/App.tsx:215-233 | a longer flush wins, a shorter one loses, a push needs equal lengths |
| Showdown.CompareValues | src/App.tsx:224-232 | reference definition of the equal-length loop: the first differing value decides, no difference is a push; its properties are the `CompareValues...` lemmas |
| Showdown.CompareValuesFlip | src/App.tsx:224-232 | swapping the two value sequences swaps win and lose |
| Showdown.CompareAntisymmetric | src/App.tsx:215-233 | swapping the hands swaps win and lose and keeps a push |
| Showdown.CompareValuesPush | src/App.tsx:224-232 | the scan over equal lengths pushes exactly when the values agree |
| Showdown.CompareValuesWin | src/App.tsx:224-232 | the scan reports a win exactly when the first differing value is the player's higher one |
| Showdown.CompareEqualLength | src/App.tsx:219-232 | equal lengths: push exactly for equal sorted values, win exactly when the first difference favours the player |
| Showdown.CompareFlushes | src/App.tsx:215-233 | the method with its index loop and early returns computes the comparison |
| Wagers.PlayWager | src/App.tsx:235-245 | three antes from six flush cards, two antes for four or five, one ante for a three-card flush whose high card reaches the threshold, zero (fold) otherwise |
| Wagers.FoldIff | src/App.tsx:235-245 | with a positive ante the player folds exactly below three cards or on a three-card flush under the threshold |
| Wagers.PlayWagerMonotone | src/App.tsx:235-245 | more flush cards or a higher card never lower the wager |
| Wagers.FlushRushPayout | src/App.tsx:247-253 | 0 below four flush cards, otherwise one of the four configured multiples, the seven-card one from seven cards on |
| Wagers.SuperFlushRushPayout | src/App.tsx:255-262 | 0 below three straight-flush cards, otherwise one of the five configured multiples, the seven-card one from seven cards on |
| Wagers.Clamp | src/App.tsx:247-262 | a card count clamped into 0..7 |
| Wagers.FlushRushIsTable | src/App.tsx:247-253 | the Flush Rush lookup is a step table: 0 below four cards, then the four-, five-, six- and seven-card multiples |
| Wagers.SuperFlushRushIsTable | src/App.tsx:255-262 | the Super Flush Rush lookup is a step table: 0 below three cards, then the three- to seven-card multiples |
| Wagers.DefaultPayoutsOrdered | src/App.tsx:60-73 | the default multiples are positive and grow with the hand |
| Wagers.FlushRushMonotone | src/App.tsx:247-253 | with ordered multiples Flush Rush pays exactly from four cards and never less for more cards |
| Wagers.SuperFlushRushMonotone | src/App.tsx:255-262 | with ordered multiples Super Flush Rush pays exactly from three cards and never less for more cards |
| Simulation.HighCardValue | src/App.tsx:298-299 | the highest value of the flush, zero without one |
| Simulation.TwoHighest | src/App.tsx:305-313 | a key exists only for a three-card flush whose highest value reaches the threshold, and it is the ranks of the flush's highest and second-highest cards (the three cards ordered by value); a three-card flush without a key has every value below the threshold |
| Simulation.OpenKey | src/App.tsx:312-317 | a missing key is appended to the key order with counters (0 wins, 0 losses, 1 hand); an existing key only counts one more hand; every other counter is unchanged |
| Simulation.BaseResultOf | src/App.tsx:302-364 | reference definition of the base-game branch: fold exactly when there is no play wager, dealer-out exactly when a playing hand meets a non-qualifying dealer, otherwise the comparison; its cases are settled by `SettleBase` and matched by `SettleBaseGame` |
| Simulation.SettleBase | src/App.tsx:323-405 | a fold stakes the ante, credits nothing and counts a loss; otherwise ante plus play is staked, and the net is minus the play wager for a non-qualifying dealer, plus the stake for a win, zero for a push and minus the stake for a loss; a won hand exactly on dealer-out or win, a lost hand exactly on fold or loss |
| Simulation.RecordResult | src/App.tsx:338-404 | keys and hand totals are unchanged; only an existing key of the hand gains a win (dealer-out or win) or a loss (loss) |
| Simulation.SettleBonus | src/App.tsx:411-432 | the stake is always added; a positive payout (stake times a positive multiplier) is credited and counts a won hand, any other hand counts as lost and credits nothing |
| Simulation.PlayHand | src/App.tsx:284-432 | one hand stakes one to four antes on the base game and one unit on each bonus bet, and adds at most one key to the end of the key order |
| Simulation.Run | src/App.tsx:283-432 | playing hands `done` to `total - 1` stakes one unit per hand on each bonus bet and only appends keys, at most one per hand |
| Simulation.Simulate | src/App.tsx:283-432 | after n hands each bonus bet has staked n units and at most n keys have been opened |
| Simulation.Deal | src/App.tsx:284 | every hand's deck has 52 cards |
| Simulation.KeyRankOrder | src/App.tsx:463-476 | the integer key orders like the two-level comparator, and distinct keys never tie |
| Simulation.SortDescMembersAll | src/App.tsx:462-463 | every listed key is a key of the table |
| Simulation.Breakdown | src/App.tsx:462-487 | one row per listed key, each row's key from the table, ordered by descending comparator key |
| Simulation.SortedKeysListed | src/App.tsx:462-476 | sorting distinct keys by the comparator keeps exactly those keys, strictly ordered high cards first |
| Simulation.BreakdownListsKeys | src/App.tsx:462-487 | the listing has one row per key, each key once, strictly ordered high cards first, each row carrying that key's counters |
| Simulation.SettleBaseGame | src/App.tsx:323-405 | the fold, dealer-out and showdown branches update the base tally and the three-card counters as the base-game settlement says |
| Simulation.SettleBonusBet | src/App.tsx:411-432 | one bonus bet is settled as `SettleBonus` says |
| Simulation.CountThreeCardFlush | src/App.tsx:305-319 | a missing counter is created and the hand is counted under its key |
| Simulation.PlayOneHand | src/App.tsx:287-432 | the loop body on a shuffled deck computes one hand's new totals and statistics |
| Simulation.DealDeck | src/App.tsx:284 | `shuffleDeck(createDeck())` yields the shuffled canonical deck for the hand's draws |
| Simulation.PlayNextHand | src/App.tsx:283-432 | one pass of the hand loop, on a freshly dealt deck, computes the next state of the run |
| Simulation.PlayHands | src/App.tsx:283-432 | the hand loop, each hand on a fresh shuffled deck, computes the run's totals and statistics |
| Simulation.SimulateHands | src/App.tsx:264-487 | the run's totals and statistics keep every invariant below, and the listing is the breakdown of the statistics |
| Simulation.CountedHandsPlay | src/App.tsx:305-319 | a counted hand is a three-card flush that the strategy plays for one ante, keyed high card first, above the threshold |
| Simulation.SettleBaseSound | src/App.tsx:324-405 | after n hands: wins + losses <= n, n <= staked <= 4n, 0 <= won <= twice the stakes |
| Simulation.SettleBonusSound | src/App.tsx:411-432 | after n hands a bonus bet has staked n, won + lost == n, and won at least one unit per winning hand |
| Simulation.OpenKeySound | src/App.tsx:312-318 | opening or reusing a key keeps the statistics sound and leaves room for this hand's result |
| Simulation.GrowSound | src/App.tsx:283 | sound statistics stay sound one hand later |
| Simulation.RecordResultSound | src/App.tsx:338-404 | wins and losses are recorded only on existing keys, so wins + losses <= total |
| Simulation.PlayHandSound | src/App.tsx:283-432 | one hand keeps every invariant, one hand further on |
| Simulation.RunSound | src/App.tsx:283-432 | playing the remaining hands from a state sound after `done` hands leaves it sound after all of them |
| Simulation.SimulateSound | src/App.tsx:264-432 | every run of n hands from the zeroed totals and empty statistics ends in a sound state |
| Simulation.DealerOutPaysAnteOnly | src/App.tsx:336-344 | a dealer who does not qualify against a playing hand: ante and play are staked, only the ante is credited, and the hand counts as won |
| Simulation.DealtHandsDistinct | src/App.tsx:284-288 | the two seven-card hands have no repeated card and share none |

## Left out

- React state, hooks, setters and JSX: UI only. `simulationResults` and `threeCardFlushResults` are computed and then not stored; the model returns the listing as a value.
- Progress reporting and the `await new Promise(setTimeout)` yield inside the hand loop: asynchronous UI plumbing with no effect on the totals.
- `Math.random`: replaced by the `draws` input. `ValidDraws` states the range the expression yields; the distribution is not modelled.
- `expectedReturn`, `winRate` and the per-key `winRate`: floating-point divisions, which can be NaN or Infinity when a denominator is zero. The model keeps the integer numerators and denominators they are computed from.
- The string keys and `split('-')`: the key is modelled as a pair of ranks. Distinct pairs give distinct strings and `split` recovers them, because no rank name contains `-`.
- `getMinFlushDisplayText`, the `gameRules` text, `updatePayoutConfig` and the `parseInt` input parsing: display and form code.
- `handResults`, `baseGameResult` and `baseGamePayout`: written and never read.
- Number precision: the totals are JavaScript numbers and are modelled as unbounded integers. The integer counts of a run stay far below 2^53.
- In-place sorting of the dictionary groups: the model sorts a copy. Once a group is sorted, only its sorted form is ever read, so the results are the same.
- `minThreeCardFlushRank` and `payoutConfig`: read from component state in the source; parameters here (`DefaultMinThreeCardFlushRank` and `DefaultPayouts` are the initial values).
- Simulation.SettleBaseSound: per-hand bounds assume the unit ante of the source (`Ante == 1`) and a play wager of at most three antes; other stakes are not covered.
- StraightFlush.AceToSixIsFive: states the example on one suit's sorted cards rather than on a whole seven-card hand.
