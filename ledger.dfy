/**
 * The accumulators of `simulateHands`: `betTotals`, with one record per bet, and `threeCardStats`,
 * the counters of played three-card flushes by their two high cards; and the invariants they keep
 * over a run of hands.
 */
module Ledger {
  import opened Seqs
  import opened Cards

  /** One entry of `betTotals`. */
  datatype Tally = Tally(totalBet: int, totalWon: int, handsWon: int, handsLost: int)

  const EmptyTally: Tally := Tally(0, 0, 0, 0)

  /** `betTotals`: the base game and the two bonus bets. */
  datatype BetTotals = BetTotals(base: Tally, flushRush: Tally, superFlushRush: Tally)

  /** The two highest ranks of a three-card flush, the key of `threeCardStats`. */
  type HighCards = (Rank, Rank)

  datatype Counts = Counts(wins: int, losses: int, total: int)

  /** `threeCardStats`: the counters, and their keys in insertion order (the order `Object.keys` lists them in). */
  datatype ThreeCardStats = ThreeCardStats(counts: map<HighCards, Counts>, keys: seq<HighCards>)

  datatype SimState = SimState(totals: BetTotals, stats: ThreeCardStats)

  const Initial: SimState :=
    SimState(BetTotals(EmptyTally, EmptyTally, EmptyTally), ThreeCardStats(map[], []))

  /** Base game after `n` hands: between one and four units staked per hand, at most twice the stakes won. */
  predicate BaseSound(t: Tally, n: int) {
    0 <= t.handsWon && 0 <= t.handsLost && t.handsWon + t.handsLost <= n &&
    n <= t.totalBet <= 4 * n && 0 <= t.totalWon <= 2 * t.totalBet
  }

  /** A bonus bet after `n` hands: one unit per hand, each hand won or lost, every win paying at least one unit. */
  predicate BonusSound(t: Tally, n: int) {
    0 <= t.handsWon && 0 <= t.handsLost && t.handsWon + t.handsLost == n &&
    t.totalBet == n && t.handsWon <= t.totalWon
  }

  /** A counter: wins and losses are among the hands counted, and no more hands than were played. */
  predicate CountsSound(c: Counts, n: int) {
    0 <= c.wins && 0 <= c.losses && c.wins + c.losses <= c.total <= n
  }

  /**
   * The statistics: keys listed once each, exactly the keys with a counter, each key a pair of
   * high cards ordered high to low whose first reaches `minRank`.
   */
  ghost predicate StatsSound(stats: ThreeCardStats, n: int, minRank: int) {
    NoDup(stats.keys) &&
    (forall k :: k in stats.keys <==> k in stats.counts) &&
    (forall k :: k in stats.counts ==> CountsSound(stats.counts[k], n)) &&
    (forall k :: k in stats.counts ==> RankValue(k.0) >= minRank && RankValue(k.0) >= RankValue(k.1))
  }

  ghost predicate Sound(s: SimState, n: int, minRank: int) {
    BaseSound(s.totals.base, n) && BonusSound(s.totals.flushRush, n) && BonusSound(s.totals.superFlushRush, n) &&
    StatsSound(s.stats, n, minRank)
  }
}
