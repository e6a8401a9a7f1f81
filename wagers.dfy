/**
 * The player's strategy (`getOptimalPlayWager`) and the two bonus pay tables
 * (`calculateFlushRushPayout`, `calculateSuperFlushRushPayout`) with their configurable multipliers.
 */
module Wagers {

  /** Flush Rush: multipliers for a 7-, 6-, 5- and 4-card flush. */
  datatype FlushRushPays = FlushRushPays(sevenCard: int, sixCard: int, fiveCard: int, fourCard: int)

  /** Super Flush Rush: multipliers for a 7- down to a 3-card straight flush. */
  datatype SuperFlushRushPays = SuperFlushRushPays(
    sevenCardStraight: int, sixCardStraight: int, fiveCardStraight: int, fourCardStraight: int, threeCardStraight: int)

  datatype PayoutConfig = PayoutConfig(flushRush: FlushRushPays, superFlushRush: SuperFlushRushPays)

  /** The pay tables the simulator starts with. */
  const DefaultPayouts: PayoutConfig :=
    PayoutConfig(FlushRushPays(300, 100, 10, 1), SuperFlushRushPays(8000, 1000, 100, 60, 7))

  /** The default threshold for playing a three-card flush: nine-high. */
  const DefaultMinThreeCardFlushRank: int := 9

  /**
   * `getOptimalPlayWager`: three times the ante with six or more flush cards, twice with four or
   * five, once with three if the high card reaches `minThreeCardFlushRank`, otherwise fold (zero).
   */
  function PlayWager(flushCards: int, highCardValue: int, anteAmount: int, minThreeCardFlushRank: int): (w: int)
    ensures w == 0 || w == anteAmount || w == 2 * anteAmount || w == 3 * anteAmount
    ensures flushCards < 3 ==> w == 0
    ensures flushCards >= 4 ==> w != 0 || anteAmount == 0
    ensures flushCards >= 6 ==> w == 3 * anteAmount
    ensures 4 <= flushCards < 6 ==> w == 2 * anteAmount
    ensures flushCards == 3 && highCardValue >= minThreeCardFlushRank ==> w == anteAmount
    ensures flushCards == 3 && highCardValue < minThreeCardFlushRank ==> w == 0
  {
    if flushCards >= 6 then anteAmount * 3
    else if flushCards >= 4 then anteAmount * 2
    else if flushCards == 3 then
      (if highCardValue >= minThreeCardFlushRank then anteAmount * 1 else 0)
    else 0
  }

  /** With a positive ante the player folds exactly on fewer than three flush cards or a low three-card flush. */
  lemma FoldIff(flushCards: int, highCardValue: int, anteAmount: int, minRank: int)
    requires anteAmount > 0
    ensures PlayWager(flushCards, highCardValue, anteAmount, minRank) == 0 <==>
      flushCards < 3 || (flushCards == 3 && highCardValue < minRank)
  {
  }

  /** A longer flush, or a higher card, never lowers the wager. */
  lemma PlayWagerMonotone(f1: int, f2: int, h1: int, h2: int, anteAmount: int, minRank: int)
    requires anteAmount >= 0 && f1 <= f2 && h1 <= h2
    ensures PlayWager(f1, h1, anteAmount, minRank) <= PlayWager(f2, h2, anteAmount, minRank)
  {
  }

  /** `calculateFlushRushPayout`: the multiple of the longest configured count the flush reaches. */
  function FlushRushPayout(flushCards: int, pays: FlushRushPays): (m: int)
    ensures flushCards < 4 ==> m == 0
    ensures flushCards >= 4 ==> m in {pays.fourCard, pays.fiveCard, pays.sixCard, pays.sevenCard}
    ensures flushCards >= 7 ==> m == pays.sevenCard
  {
    if flushCards >= 7 then pays.sevenCard
    else if flushCards >= 6 then pays.sixCard
    else if flushCards >= 5 then pays.fiveCard
    else if flushCards >= 4 then pays.fourCard
    else 0
  }

  /** `calculateSuperFlushRushPayout`: the multiple of the longest configured count the straight flush reaches. */
  function SuperFlushRushPayout(straightFlushCards: int, pays: SuperFlushRushPays): (m: int)
    ensures straightFlushCards < 3 ==> m == 0
    ensures straightFlushCards >= 3 ==> m in {pays.threeCardStraight, pays.fourCardStraight, pays.fiveCardStraight,
                                              pays.sixCardStraight, pays.sevenCardStraight}
    ensures straightFlushCards >= 7 ==> m == pays.sevenCardStraight
  {
    if straightFlushCards >= 7 then pays.sevenCardStraight
    else if straightFlushCards >= 6 then pays.sixCardStraight
    else if straightFlushCards >= 5 then pays.fiveCardStraight
    else if straightFlushCards >= 4 then pays.fourCardStraight
    else if straightFlushCards >= 3 then pays.threeCardStraight
    else 0
  }

  /** The Flush Rush table indexed by card count, 0 to 7. */
  function FlushRushTable(pays: FlushRushPays): seq<int> {
    [0, 0, 0, 0, pays.fourCard, pays.fiveCard, pays.sixCard, pays.sevenCard]
  }

  /** The Super Flush Rush table indexed by card count, 0 to 7. */
  function SuperFlushRushTable(pays: SuperFlushRushPays): seq<int> {
    [0, 0, 0, pays.threeCardStraight, pays.fourCardStraight, pays.fiveCardStraight, pays.sixCardStraight,
     pays.sevenCardStraight]
  }

  /** Counts below zero read as zero, above seven as seven. */
  function Clamp(n: int): (c: nat)
    ensures c <= 7
    ensures 0 <= n <= 7 ==> c == n
  {
    if n < 0 then 0 else if n > 7 then 7 else n
  }

  /** The chain of comparisons is a lookup in the pay table. */
  lemma FlushRushIsTable(flushCards: int, pays: FlushRushPays)
    ensures FlushRushPayout(flushCards, pays) == FlushRushTable(pays)[Clamp(flushCards)]
  {
  }

  lemma SuperFlushRushIsTable(straightFlushCards: int, pays: SuperFlushRushPays)
    ensures SuperFlushRushPayout(straightFlushCards, pays) == SuperFlushRushTable(pays)[Clamp(straightFlushCards)]
  {
  }

  /** Multipliers that are positive and grow with the hand. */
  predicate FlushRushOrdered(pays: FlushRushPays) {
    0 < pays.fourCard <= pays.fiveCard <= pays.sixCard <= pays.sevenCard
  }

  predicate SuperFlushRushOrdered(pays: SuperFlushRushPays) {
    0 < pays.threeCardStraight <= pays.fourCardStraight <= pays.fiveCardStraight <= pays.sixCardStraight <=
      pays.sevenCardStraight
  }

  lemma DefaultPayoutsOrdered()
    ensures FlushRushOrdered(DefaultPayouts.flushRush) && SuperFlushRushOrdered(DefaultPayouts.superFlushRush)
  {
  }

  /** With ordered multipliers, Flush Rush pays exactly from four cards on and never pays less for more cards. */
  lemma FlushRushMonotone(n1: int, n2: int, pays: FlushRushPays)
    requires FlushRushOrdered(pays) && n1 <= n2
    ensures FlushRushPayout(n1, pays) <= FlushRushPayout(n2, pays)
    ensures FlushRushPayout(n1, pays) > 0 <==> n1 >= 4
  {
  }

  /** With ordered multipliers, Super Flush Rush pays exactly from three cards on and never pays less for more cards. */
  lemma SuperFlushRushMonotone(n1: int, n2: int, pays: SuperFlushRushPays)
    requires SuperFlushRushOrdered(pays) && n1 <= n2
    ensures SuperFlushRushPayout(n1, pays) <= SuperFlushRushPayout(n2, pays)
    ensures SuperFlushRushPayout(n1, pays) > 0 <==> n1 >= 3
  {
  }
}
