/**
 * `simulateHands`: for every hand a fresh shuffled deck, seven cards to the player and the next
 * seven to the dealer, the player's strategy, the dealer's qualification, the base game
 * settlement, the two bonus bets and the three-card-flush statistics, all accumulated into
 * running totals; afterwards the statistics are listed by their two high cards.
 */
module Simulation {
  import opened Seqs
  import opened Sorting
  import opened Cards
  import opened Shuffle
  import opened Flush
  import opened StraightFlush
  import opened Showdown
  import opened Wagers
  import opened Ledger

  datatype Option<T> = None | Some(value: T)

  /** The stakes of one hand: one unit each. */
  const Ante: int := 1
  const FlushRushBet: int := 1
  const SuperFlushRushBet: int := 1

  /** How the base game of a hand ends. */
  datatype BaseResult = Fold | DealerOut | Played(outcome: Outcome)

  // ----- one hand

  /** `highCardValue`: the highest value of the flush, zero without one. */
  function HighCardValue(flush: seq<Card>): (h: int)
    ensures flush == [] ==> h == 0
    ensures flush != [] ==> exists k :: 0 <= k < |flush| && CardValue(flush[k]) == h
    ensures forall k :: 0 <= k < |flush| ==> CardValue(flush[k]) <= h
  {
    if |flush| > 0 then MaxValue(flush) else 0
  }

  /**
   * The key under which a three-card flush is counted: the ranks of its two highest cards, when
   * the highest reaches `minRank`; other hands are not counted.
   */
  function TwoHighest(playerFlush: seq<Card>, minRank: int): (r: Option<HighCards>)
    ensures r.Some? ==> |playerFlush| == 3 && RankValue(r.value.0) >= minRank && RankValue(r.value.0) >= RankValue(r.value.1)
    ensures r.Some? ==> forall c :: c in playerFlush ==> CardValue(c) <= RankValue(r.value.0)
    ensures |playerFlush| == 3 && r.None? ==> forall c :: c in playerFlush ==> CardValue(c) < minRank
    ensures r.Some? ==>
      exists c1, c2, c3 :: multiset(playerFlush) == multiset{c1, c2, c3} &&
        r.value == (c1.rank, c2.rank) && CardValue(c1) >= CardValue(c2) >= CardValue(c3)
  {
    if |playerFlush| == 3 then
      var sortedFlush := SortDesc(playerFlush, CardValue);
      assert forall c :: c in playerFlush ==> CardValue(c) <= CardValue(sortedFlush[0]) by {
        forall c | c in playerFlush ensures CardValue(c) <= CardValue(sortedFlush[0]) {
          SortDescMembers(playerFlush, CardValue, c);
          var j :| 0 <= j < |sortedFlush| && sortedFlush[j] == c;
        }
      }
      assert sortedFlush == [sortedFlush[0], sortedFlush[1], sortedFlush[2]];
      if CardValue(sortedFlush[0]) >= minRank then Some((sortedFlush[0].rank, sortedFlush[1].rank)) else None
    else
      None
  }

  /** Creates the counter of `key` when it is missing, then counts one more hand under it. */
  function OpenKey(stats: ThreeCardStats, key: HighCards): (r: ThreeCardStats)
    ensures r.counts.Keys == stats.counts.Keys + {key}
    ensures key in stats.counts ==> r.keys == stats.keys && r.counts[key] == stats.counts[key].(total := stats.counts[key].total + 1)
    ensures key !in stats.counts ==> r.keys == stats.keys + [key] && r.counts[key] == Counts(0, 0, 1)
    ensures forall k :: k in stats.counts && k != key ==> r.counts[k] == stats.counts[k]
  {
    var c := if key in stats.counts then stats.counts[key] else Counts(0, 0, 0);
    var keys := if key in stats.counts then stats.keys else stats.keys + [key];
    ThreeCardStats(stats.counts[key := c.(total := c.total + 1)], keys)
  }

  function BaseResultOf(playWager: int, playerFlush: seq<Card>, dealerFlush: seq<Card>): BaseResult {
    if playWager == 0 then Fold
    else if !DealerQualifies(dealerFlush) then DealerOut
    else Played(Compare(playerFlush, dealerFlush))
  }

  /**
   * The base game: a fold loses the ante; otherwise ante and play are staked, a non-qualifying
   * dealer returns the ante only, a win pays both even money, a push returns both.
   */
  function SettleBase(t: Tally, result: BaseResult, playWager: int): (r: Tally)
    ensures r.totalBet == t.totalBet + (if result == Fold then Ante else Ante + playWager)
    ensures r.handsWon == t.handsWon + (if result == DealerOut || result == Played(Win) then 1 else 0)
    ensures r.handsLost == t.handsLost + (if result == Fold || result == Played(Lose) then 1 else 0)
    ensures result == Fold ==> r.totalWon == t.totalWon
    ensures result == DealerOut ==> r.totalWon - r.totalBet == t.totalWon - t.totalBet - playWager
    ensures result == Played(Win) ==> r.totalWon - r.totalBet == t.totalWon - t.totalBet + Ante + playWager
    ensures result == Played(Push) ==> r.totalWon - r.totalBet == t.totalWon - t.totalBet
    ensures result == Played(Lose) ==> r.totalWon == t.totalWon
  {
    match result
    case Fold => t.(totalBet := t.totalBet + Ante, handsLost := t.handsLost + 1)
    case DealerOut =>
      t.(totalBet := t.totalBet + Ante + playWager, totalWon := t.totalWon + Ante, handsWon := t.handsWon + 1)
    case Played(Win) =>
      t.(totalBet := t.totalBet + Ante + playWager, totalWon := t.totalWon + (Ante + playWager) * 2,
         handsWon := t.handsWon + 1)
    case Played(Push) => t.(totalBet := t.totalBet + Ante + playWager, totalWon := t.totalWon + Ante + playWager)
    case Played(Lose) => t.(totalBet := t.totalBet + Ante + playWager, handsLost := t.handsLost + 1)
  }

  /** Wins (a non-qualifying dealer or a won showdown) and lost showdowns of a counted hand. */
  function RecordResult(stats: ThreeCardStats, key: Option<HighCards>, result: BaseResult): (r: ThreeCardStats)
    ensures r.keys == stats.keys && r.counts.Keys == stats.counts.Keys
    ensures forall k :: k in stats.counts ==> r.counts[k].total == stats.counts[k].total
    ensures forall k :: k in stats.counts && key != Some(k) ==> r.counts[k] == stats.counts[k]
    ensures key.Some? && key.value in stats.counts ==>
      r.counts[key.value].wins == stats.counts[key.value].wins + (if result == DealerOut || result == Played(Win) then 1 else 0) &&
      r.counts[key.value].losses == stats.counts[key.value].losses + (if result == Played(Lose) then 1 else 0)
  {
    if key.None? || key.value !in stats.counts then
      stats
    else
      var c := stats.counts[key.value];
      match result
      case DealerOut => stats.(counts := stats.counts[key.value := c.(wins := c.wins + 1)])
      case Played(Win) => stats.(counts := stats.counts[key.value := c.(wins := c.wins + 1)])
      case Played(Lose) => stats.(counts := stats.counts[key.value := c.(losses := c.losses + 1)])
      case _ => stats
  }

  /** A bonus bet: the stake is always placed; a positive multiplier pays stake times multiplier. */
  function SettleBonus(t: Tally, multiplier: int, stake: int): (r: Tally)
    ensures r.totalBet == t.totalBet + stake
    ensures stake >= 0 ==> r.totalWon >= t.totalWon
    ensures r.totalWon > t.totalWon <==> multiplier > 0 && stake * multiplier > 0
    ensures r.totalWon == t.totalWon + (if multiplier > 0 && stake * multiplier > 0 then stake * multiplier else 0)
    ensures r.handsWon == t.handsWon + (if multiplier > 0 && stake * multiplier > 0 then 1 else 0)
    ensures r.handsLost == t.handsLost + (if multiplier > 0 && stake * multiplier > 0 then 0 else 1)
  {
    var payout := if multiplier > 0 then stake * multiplier else 0;
    var t' := t.(totalBet := t.totalBet + stake);
    if payout > 0 then t'.(totalWon := t'.totalWon + payout, handsWon := t'.handsWon + 1)
    else t'.(handsLost := t'.handsLost + 1)
  }

  /** One iteration of the hand loop, on the shuffled deck. */
  function PlayHand(s: SimState, deck: seq<Card>, minRank: int, pays: PayoutConfig): (r: SimState)
    requires |deck| >= 14
    ensures s.totals.base.totalBet + Ante <= r.totals.base.totalBet <= s.totals.base.totalBet + 4 * Ante
    ensures r.totals.flushRush.totalBet == s.totals.flushRush.totalBet + FlushRushBet
    ensures r.totals.superFlushRush.totalBet == s.totals.superFlushRush.totalBet + SuperFlushRushBet
    ensures s.stats.keys <= r.stats.keys && |r.stats.keys| <= |s.stats.keys| + 1
  {
    var playerCards := deck[..7];
    var dealerCards := deck[7..14];
    var playerBestFlush := LongestFlush(playerCards);
    var dealerBestFlush := LongestFlush(dealerCards);
    var playerStraightFlush := LongestStraightFlush(playerCards);
    var playWager := PlayWager(|playerBestFlush|, HighCardValue(playerBestFlush), Ante, minRank);
    var key := TwoHighest(playerBestFlush, minRank);
    var counted := if key.Some? then OpenKey(s.stats, key.value) else s.stats;
    var result := BaseResultOf(playWager, playerBestFlush, dealerBestFlush);
    SimState(
      BetTotals(
        SettleBase(s.totals.base, result, playWager),
        SettleBonus(s.totals.flushRush, FlushRushPayout(|playerBestFlush|, pays.flushRush), FlushRushBet),
        SettleBonus(s.totals.superFlushRush, SuperFlushRushPayout(|playerStraightFlush|, pays.superFlushRush),
                    SuperFlushRushBet)),
      RecordResult(counted, key, result))
  }

  /** The deck of a hand: the canonical deck shuffled with that hand's draws. */
  function Deal(draws: seq<nat>): (deck: seq<Card>)
    requires ValidDraws(draws, 52)
    ensures |deck| == 52
  {
    FisherYates(CanonicalDeck(), draws)
  }

  /** The draws of the first `n` hands are there and each shuffles a full deck. */
  predicate ValidUpTo(draws: seq<seq<nat>>, n: nat) {
    n <= |draws| && forall h :: 0 <= h < n ==> ValidDraws(draws[h], 52)
  }

  /**
   * The state after hands `done .. total - 1` are played on `s`, hand `h` dealt with `draws[h]`:
   * the rest of a run that has already played `done` hands.
   */
  function Run(s: SimState, draws: seq<seq<nat>>, done: nat, total: nat, minRank: int, pays: PayoutConfig): (r: SimState)
    requires ValidUpTo(draws, total)
    ensures done <= total ==> r.totals.flushRush.totalBet == s.totals.flushRush.totalBet + (total - done) * FlushRushBet
    ensures done <= total ==>
      r.totals.superFlushRush.totalBet == s.totals.superFlushRush.totalBet + (total - done) * SuperFlushRushBet
    ensures s.stats.keys <= r.stats.keys
    ensures done <= total ==> |r.stats.keys| <= |s.stats.keys| + (total - done)
    decreases if done <= total then total - done else 0
  {
    if done >= total then s
    else Run(PlayHand(s, Deal(draws[done]), minRank, pays), draws, done + 1, total, minRank, pays)
  }

  /** The state after the first `n` hands. */
  function Simulate(draws: seq<seq<nat>>, n: nat, minRank: int, pays: PayoutConfig): (r: SimState)
    requires ValidUpTo(draws, n)
    ensures r.totals.flushRush.totalBet == n * FlushRushBet
    ensures r.totals.superFlushRush.totalBet == n * SuperFlushRushBet
    ensures |r.stats.keys| <= n
  {
    Run(Initial, draws, 0, n, minRank, pays)
  }

  /** Playing the remaining hands from a state that keeps the invariants keeps them to the end. */
  lemma {:induction false} RunSound(s: SimState, draws: seq<seq<nat>>, done: nat, total: nat, minRank: int,
                                    pays: PayoutConfig)
    requires ValidUpTo(draws, total) && done <= total && Sound(s, done, minRank)
    ensures Sound(Run(s, draws, done, total, minRank, pays), total, minRank)
    decreases total - done
  {
    if done < total {
      var deck := Deal(draws[done]);
      PlayHandSound(s, done, deck, minRank, pays);
      RunSound(PlayHand(s, deck, minRank, pays), draws, done + 1, total, minRank, pays);
    }
  }

  /** Every state a run reaches keeps the invariants of a run of that many hands. */
  lemma SimulateSound(draws: seq<seq<nat>>, n: nat, minRank: int, pays: PayoutConfig)
    requires ValidUpTo(draws, n)
    ensures Sound(Simulate(draws, n, minRank, pays), n, minRank)
  {
    RunSound(Initial, draws, 0, n, minRank, pays);
  }

  // ----- the listing of the statistics

  /** The comparator of the listing as one integer: first value, then second value. */
  function KeyRank(k: HighCards): int {
    15 * RankValue(k.0) + RankValue(k.1)
  }

  /** `k` comes before `l`: a higher first value, or the same first value and a higher second. */
  predicate ListedBefore(k: HighCards, l: HighCards) {
    RankValue(k.0) > RankValue(l.0) || (RankValue(k.0) == RankValue(l.0) && RankValue(k.1) > RankValue(l.1))
  }

  /** Sorting by `KeyRank` is sorting with the two-level comparator, and distinct keys never tie. */
  lemma KeyRankOrder(k: HighCards, l: HighCards)
    ensures KeyRank(k) > KeyRank(l) <==> ListedBefore(k, l)
    ensures KeyRank(k) == KeyRank(l) ==> k == l
  {
    RankValueInjective(k.0, l.0);
    RankValueInjective(k.1, l.1);
  }

  datatype StatsRow = StatsRow(highCards: HighCards, totalHands: int, wins: int, losses: int)

  predicate KeysKnown(stats: ThreeCardStats) {
    forall k :: k in stats.keys ==> k in stats.counts
  }

  /** `threeCardFlushResults`: one row per key, listed by descending first and then second value. */
  function Breakdown(stats: ThreeCardStats): (r: seq<StatsRow>)
    requires KeysKnown(stats)
    ensures |r| == |stats.keys|
    ensures forall i :: 0 <= i < |r| ==> r[i].highCards in stats.keys
    ensures forall i, j :: 0 <= i < j < |r| ==> KeyRank(r[i].highCards) >= KeyRank(r[j].highCards)
  {
    var sorted := SortDesc(stats.keys, KeyRank);
    SortDescMembersAll(stats.keys, KeyRank);
    seq(|sorted|, i requires 0 <= i < |sorted| =>
      StatsRow(sorted[i], stats.counts[sorted[i]].total, stats.counts[sorted[i]].wins, stats.counts[sorted[i]].losses))
  }

  lemma SortDescMembersAll(keys: seq<HighCards>, key: HighCards -> int)
    ensures forall x :: x in SortDesc(keys, key) ==> x in keys
  {
    forall x | x in SortDesc(keys, key) ensures x in keys {
      SortDescMembers(keys, key, x);
    }
  }

  /**
   * The rows list every key exactly once, strictly ordered by the comparator, with the counters
   * kept under the key.
   */
  lemma BreakdownListsKeys(stats: ThreeCardStats)
    requires KeysKnown(stats) && NoDup(stats.keys)
    ensures |Breakdown(stats)| == |stats.keys|
    ensures forall k :: k in stats.keys <==> exists i :: 0 <= i < |Breakdown(stats)| && Breakdown(stats)[i].highCards == k
    ensures forall i, j :: 0 <= i < j < |Breakdown(stats)| ==>
      ListedBefore(Breakdown(stats)[i].highCards, Breakdown(stats)[j].highCards)
    ensures forall i :: 0 <= i < |Breakdown(stats)| ==>
      Breakdown(stats)[i].totalHands == stats.counts[Breakdown(stats)[i].highCards].total &&
      Breakdown(stats)[i].wins == stats.counts[Breakdown(stats)[i].highCards].wins &&
      Breakdown(stats)[i].losses == stats.counts[Breakdown(stats)[i].highCards].losses
  {
    var sorted := SortDesc(stats.keys, KeyRank);
    var rows := Breakdown(stats);
    SortedKeysListed(stats.keys);
    assert forall i :: 0 <= i < |rows| ==> rows[i].highCards == sorted[i];
    forall k ensures k in stats.keys <==> exists i :: 0 <= i < |rows| && rows[i].highCards == k {
      if k in sorted {
        var i :| 0 <= i < |sorted| && sorted[i] == k;
        assert rows[i].highCards == k;
      }
    }
  }

  /** Sorting distinct keys by `KeyRank` keeps exactly those keys and orders them strictly by the comparator. */
  lemma SortedKeysListed(keys: seq<HighCards>)
    requires NoDup(keys)
    ensures forall k :: k in SortDesc(keys, KeyRank) <==> k in keys
    ensures forall i, j :: 0 <= i < j < |SortDesc(keys, KeyRank)| ==>
      ListedBefore(SortDesc(keys, KeyRank)[i], SortDesc(keys, KeyRank)[j])
  {
    var sorted := SortDesc(keys, KeyRank);
    NoDupSubMultiset(keys, sorted);
    forall k ensures k in sorted <==> k in keys {
      SortDescMembers(keys, KeyRank, k);
    }
    forall i, j | 0 <= i < j < |sorted| ensures ListedBefore(sorted[i], sorted[j]) {
      KeyRankOrder(sorted[i], sorted[j]);
    }
  }


  // ----- the hand loop, as the source runs it

  /** The base game of the loop body: the fold, the non-qualifying dealer and the showdown branches. */
  method SettleBaseGame(base: Tally, counts: map<HighCards, Counts>, keys: seq<HighCards>,
                        twoHighestKey: Option<HighCards>, playWager: int,
                        playerBestFlush: seq<Card>, dealerBestFlush: seq<Card>)
    returns (base': Tally, counts': map<HighCards, Counts>)
    ensures base' == SettleBase(base, BaseResultOf(playWager, playerBestFlush, dealerBestFlush), playWager)
    ensures ThreeCardStats(counts', keys) ==
      RecordResult(ThreeCardStats(counts, keys), twoHighestKey, BaseResultOf(playWager, playerBestFlush, dealerBestFlush))
  {
    base', counts' := base, counts;
    var shouldFold := playWager == 0;
    var dealerQualified := DealerQualifies(dealerBestFlush);
    if shouldFold {
      base' := base'.(totalBet := base'.totalBet + Ante, handsLost := base'.handsLost + 1);
    } else {
      var totalWager := Ante + playWager;
      base' := base'.(totalBet := base'.totalBet + totalWager);
      if !dealerQualified {
        base' := base'.(totalWon := base'.totalWon + Ante, handsWon := base'.handsWon + 1);
        if twoHighestKey.Some? && twoHighestKey.value in counts' {
          var k := twoHighestKey.value;
          counts' := counts'[k := counts'[k].(wins := counts'[k].wins + 1)];
        }
      } else {
        var comparison := CompareFlushes(playerBestFlush, dealerBestFlush);
        if comparison == Win {
          base' := base'.(totalWon := base'.totalWon + totalWager * 2, handsWon := base'.handsWon + 1);
          if twoHighestKey.Some? && twoHighestKey.value in counts' {
            var k := twoHighestKey.value;
            counts' := counts'[k := counts'[k].(wins := counts'[k].wins + 1)];
          }
        } else if comparison == Push {
          base' := base'.(totalWon := base'.totalWon + totalWager);
        } else {
          base' := base'.(handsLost := base'.handsLost + 1);
          if twoHighestKey.Some? && twoHighestKey.value in counts' {
            var k := twoHighestKey.value;
            counts' := counts'[k := counts'[k].(losses := counts'[k].losses + 1)];
          }
        }
      }
    }
  }

  /** A bonus bet of the loop body. */
  method SettleBonusBet(t: Tally, multiplier: int, stake: int) returns (t': Tally)
    ensures t' == SettleBonus(t, multiplier, stake)
  {
    var payout := if multiplier > 0 then stake * multiplier else 0;
    t' := t.(totalBet := t.totalBet + stake);
    if payout > 0 {
      t' := t'.(totalWon := t'.totalWon + payout, handsWon := t'.handsWon + 1);
    } else {
      t' := t'.(handsLost := t'.handsLost + 1);
    }
  }

  /** The counting of a three-card flush: the counter is created when missing, then counts the hand. */
  method CountThreeCardFlush(counts: map<HighCards, Counts>, keys: seq<HighCards>, twoHighestKey: Option<HighCards>)
    returns (counts': map<HighCards, Counts>, keys': seq<HighCards>)
    ensures ThreeCardStats(counts', keys') ==
      if twoHighestKey.Some? then OpenKey(ThreeCardStats(counts, keys), twoHighestKey.value) else ThreeCardStats(counts, keys)
  {
    counts', keys' := counts, keys;
    if twoHighestKey.Some? {
      var k := twoHighestKey.value;
      if k !in counts' {
        counts' := counts'[k := Counts(0, 0, 0)];
        keys' := keys' + [k];
      }
      counts' := counts'[k := counts'[k].(total := counts'[k].total + 1)];
    }
  }

  /** The body of the hand loop on an already shuffled deck. */
  method PlayOneHand(totals: BetTotals, counts: map<HighCards, Counts>, keys: seq<HighCards>, deck: seq<Card>,
                     minRank: int, pays: PayoutConfig)
    returns (totals': BetTotals, counts': map<HighCards, Counts>, keys': seq<HighCards>)
    requires |deck| >= 14
    ensures SimState(totals', ThreeCardStats(counts', keys')) ==
      PlayHand(SimState(totals, ThreeCardStats(counts, keys)), deck, minRank, pays)
  {
    var playerCards := deck[..7];
    var dealerCards := deck[7..14];
    var playerBestFlush := FindLongestFlush(playerCards);
    var dealerBestFlush := FindLongestFlush(dealerCards);
    var playerStraightFlush := FindLongestStraightFlush(playerCards);
    var highCardValue := if |playerBestFlush| > 0 then MaxValue(playerBestFlush) else 0;
    var playWager := PlayWager(|playerBestFlush|, highCardValue, Ante, minRank);
    var twoHighestKey := TwoHighest(playerBestFlush, minRank);
    counts', keys' := CountThreeCardFlush(counts, keys, twoHighestKey);
    var base;
    base, counts' := SettleBaseGame(totals.base, counts', keys', twoHighestKey, playWager, playerBestFlush, dealerBestFlush);
    var flushRush := SettleBonusBet(totals.flushRush, FlushRushPayout(|playerBestFlush|, pays.flushRush), FlushRushBet);
    var superFlushRush := SettleBonusBet(totals.superFlushRush,
      SuperFlushRushPayout(|playerStraightFlush|, pays.superFlushRush), SuperFlushRushBet);
    totals' := BetTotals(base, flushRush, superFlushRush);
  }

  /** The deck of one hand: a freshly created deck, shuffled with the hand's draws. */
  method DealDeck(draws: seq<nat>) returns (deck: seq<Card>)
    requires ValidDraws(draws, 52)
    ensures deck == Deal(draws)
  {
    deck := CreateDeck();
    deck := ShuffleDeck(deck, draws);
  }

  /** One pass of the hand loop: a fresh deck is dealt with the hand's draws and played. */
  method PlayNextHand(totals: BetTotals, counts: map<HighCards, Counts>, keys: seq<HighCards>,
                      draws: seq<nat>, minRank: int, pays: PayoutConfig)
    returns (totals': BetTotals, counts': map<HighCards, Counts>, keys': seq<HighCards>)
    requires ValidDraws(draws, 52)
    ensures SimState(totals', ThreeCardStats(counts', keys')) ==
      PlayHand(SimState(totals, ThreeCardStats(counts, keys)), Deal(draws), minRank, pays)
  {
    var deck := DealDeck(draws);
    totals', counts', keys' := PlayOneHand(totals, counts, keys, deck, minRank, pays);
  }

  /** The hand loop: `numHands` hands, each dealt from a freshly created deck shuffled with that hand's draws. */
  method PlayHands(numHands: nat, minRank: int, pays: PayoutConfig, draws: seq<seq<nat>>)
    returns (betTotals: BetTotals, counts: map<HighCards, Counts>, keys: seq<HighCards>)
    requires ValidUpTo(draws, numHands)
    ensures SimState(betTotals, ThreeCardStats(counts, keys)) == Simulate(draws, numHands, minRank, pays)
  {
    betTotals := Initial.totals;
    counts, keys := map[], [];
    for hand := 0 to numHands
      invariant Run(SimState(betTotals, ThreeCardStats(counts, keys)), draws, hand, numHands, minRank, pays) ==
        Simulate(draws, numHands, minRank, pays)
    {
      betTotals, counts, keys := PlayNextHand(betTotals, counts, keys, draws[hand], minRank, pays);
    }
  }

  /**
   * `simulateHands`: the hand loop, then the listing of the three-card statistics. `draws[h]`
   * stands for the random numbers of hand `h`.
   */
  method SimulateHands(numHands: nat, minRank: int, pays: PayoutConfig, draws: seq<seq<nat>>)
    returns (betTotals: BetTotals, threeCardStats: ThreeCardStats, threeCardFlushResults: seq<StatsRow>)
    requires ValidUpTo(draws, numHands)
    ensures SimState(betTotals, threeCardStats) == Simulate(draws, numHands, minRank, pays)
    ensures Sound(SimState(betTotals, threeCardStats), numHands, minRank)
    ensures threeCardFlushResults == Breakdown(threeCardStats)
  {
    var counts, keys;
    betTotals, counts, keys := PlayHands(numHands, minRank, pays, draws);
    threeCardStats := ThreeCardStats(counts, keys);
    SimulateSound(draws, numHands, minRank, pays);
    assert KeysKnown(threeCardStats);
    threeCardFlushResults := Breakdown(threeCardStats);
  }

  // ----- what every run keeps

  /** A counted hand is a three-card flush the strategy plays: it never folds. */
  lemma CountedHandsPlay(playerFlush: seq<Card>, minRank: int)
    requires TwoHighest(playerFlush, minRank).Some?
    ensures |playerFlush| == 3
    ensures PlayWager(|playerFlush|, HighCardValue(playerFlush), Ante, minRank) == Ante
    ensures var k := TwoHighest(playerFlush, minRank).value;
      RankValue(k.0) >= minRank && RankValue(k.0) >= RankValue(k.1)
  {
    var sortedFlush := SortDesc(playerFlush, CardValue);
    var h := HighCardValue(playerFlush);
    assert sortedFlush[0] in multiset(playerFlush);
    var i :| 0 <= i < |playerFlush| && playerFlush[i] == sortedFlush[0];
    assert CardValue(sortedFlush[0]) <= h;
  }

  lemma SettleBaseSound(t: Tally, n: nat, result: BaseResult, playWager: int)
    requires BaseSound(t, n)
    requires result == Fold || 1 <= playWager <= 3
    ensures BaseSound(SettleBase(t, result, playWager), n + 1)
  {
  }

  lemma SettleBonusSound(t: Tally, n: nat, multiplier: int, stake: int)
    requires BonusSound(t, n) && stake == 1
    ensures BonusSound(SettleBonus(t, multiplier, stake), n + 1)
  {
  }

  lemma OpenKeySound(stats: ThreeCardStats, n: nat, minRank: int, k: HighCards)
    requires StatsSound(stats, n, minRank)
    requires RankValue(k.0) >= minRank && RankValue(k.0) >= RankValue(k.1)
    ensures StatsSound(OpenKey(stats, k), n + 1, minRank)
    ensures k in OpenKey(stats, k).counts
    ensures OpenKey(stats, k).counts[k].total >= 1 + OpenKey(stats, k).counts[k].wins + OpenKey(stats, k).counts[k].losses
  {
    var s' := OpenKey(stats, k);
    if k !in stats.counts {
      assert k !in stats.keys;
      forall i, j | 0 <= i < j < |s'.keys| ensures s'.keys[i] != s'.keys[j] {
        assert s'.keys[j] == k ==> s'.keys[i] in stats.keys;
      }
    }
  }

  lemma GrowSound(stats: ThreeCardStats, n: int, minRank: int)
    requires StatsSound(stats, n, minRank)
    ensures StatsSound(stats, n + 1, minRank)
  {
  }

  lemma RecordResultSound(counted: ThreeCardStats, n: int, minRank: int, key: Option<HighCards>, result: BaseResult)
    requires StatsSound(counted, n, minRank)
    requires key.Some? ==> (key.value in counted.counts &&
      counted.counts[key.value].total >= 1 + counted.counts[key.value].wins + counted.counts[key.value].losses)
    ensures StatsSound(RecordResult(counted, key, result), n, minRank)
  {
  }

  /** One hand keeps every invariant, one hand further on. */
  lemma PlayHandSound(s: SimState, n: nat, deck: seq<Card>, minRank: int, pays: PayoutConfig)
    requires |deck| >= 14 && Sound(s, n, minRank)
    ensures Sound(PlayHand(s, deck, minRank, pays), n + 1, minRank)
  {
    var playerBestFlush := LongestFlush(deck[..7]);
    var playWager := PlayWager(|playerBestFlush|, HighCardValue(playerBestFlush), Ante, minRank);
    var key := TwoHighest(playerBestFlush, minRank);
    var result := BaseResultOf(playWager, playerBestFlush, LongestFlush(deck[7..14]));
    SettleBaseSound(s.totals.base, n, result, playWager);
    SettleBonusSound(s.totals.flushRush, n, FlushRushPayout(|playerBestFlush|, pays.flushRush), FlushRushBet);
    SettleBonusSound(s.totals.superFlushRush, n,
      SuperFlushRushPayout(|LongestStraightFlush(deck[..7])|, pays.superFlushRush), SuperFlushRushBet);
    var counted := if key.Some? then OpenKey(s.stats, key.value) else s.stats;
    if key.Some? {
      CountedHandsPlay(playerBestFlush, minRank);
      OpenKeySound(s.stats, n, minRank, key.value);
    } else {
      GrowSound(s.stats, n, minRank);
    }
    RecordResultSound(counted, n + 1, minRank, key, result);
  }

  // ----- single-hand facts

  /**
   * A dealer without a qualifying flush against a playing hand: both wagers are staked, and only
   * the ante comes back, counted as a won hand.
   */
  lemma DealerOutPaysAnteOnly(s: SimState, deck: seq<Card>, minRank: int, pays: PayoutConfig)
    requires |deck| >= 14
    requires PlayWager(|LongestFlush(deck[..7])|, HighCardValue(LongestFlush(deck[..7])), Ante, minRank) > 0
    requires !DealerQualifies(LongestFlush(deck[7..14]))
    ensures var t := PlayHand(s, deck, minRank, pays).totals.base;
      var w := PlayWager(|LongestFlush(deck[..7])|, HighCardValue(LongestFlush(deck[..7])), Ante, minRank);
      t.totalBet == s.totals.base.totalBet + Ante + w && t.totalWon == s.totals.base.totalWon + Ante &&
      t.handsWon == s.totals.base.handsWon + 1 && t.handsLost == s.totals.base.handsLost
  {
  }

  /** The shuffled deck holds every card once, so the two hands are seven distinct cards each and share none. */
  lemma DealtHandsDistinct(draws: seq<nat>)
    requires ValidDraws(draws, 52)
    ensures NoDup(Deal(draws)[..7]) && NoDup(Deal(draws)[7..14])
    ensures forall i, j :: 0 <= i < 7 <= j < 14 ==> Deal(draws)[i] != Deal(draws)[j]
  {
    var deck := Deal(draws);
    assert NoDup(deck) by {
      CanonicalDeckNoDup();
      FisherYatesPermutes(CanonicalDeck(), draws);
      NoDupSubMultiset(CanonicalDeck(), deck);
    }
    assert forall i :: 0 <= i < 7 ==> deck[..7][i] == deck[i];
    assert forall i :: 0 <= i < 7 ==> deck[7..14][i] == deck[7 + i];
  }
}
