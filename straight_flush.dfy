/**
 * `findLongestStraightFlush`: for every suit with at least three cards, sorted by ascending value,
 * the longest run of consecutive values found by a greedy scan from each position, and the
 * A-2-3-4-5 "wheel" when all five of those cards are present. The running best survives from suit
 * to suit: a run replaces it only when strictly longer, the wheel already when at least as long.
 */
module StraightFlush {
  import opened Seqs
  import opened Sorting
  import opened Cards
  import opened Flush

  function NegValue(c: Card): int {
    -CardValue(c)
  }

  /** A suit's cards sorted by ascending rank value, stably. */
  function Ascending(g: seq<Card>): seq<Card> {
    SortDesc(g, NegValue)
  }

  /**
   * The inner scan from position `j` with last value `cur`: a card of value `cur + 1` extends the
   * run, a larger value ends it, a value not above `cur` is skipped.
   */
  function RunAfter(sc: seq<Card>, j: nat, cur: int): (r: seq<Card>)
    ensures forall k :: 0 <= k < |r| ==> CardValue(r[k]) == cur + 1 + k
    decreases |sc| - j
  {
    if j >= |sc| then
      []
    else
      var v := CardValue(sc[j]);
      if v == cur + 1 then [sc[j]] + RunAfter(sc, j + 1, v)
      else if v > cur + 1 then []
      else RunAfter(sc, j + 1, cur)
  }

  /** The straight the source builds starting from position `i`. */
  function RunFrom(sc: seq<Card>, i: nat): seq<Card>
    requires i < |sc|
  {
    [sc[i]] + RunAfter(sc, i + 1, CardValue(sc[i]))
  }

  /** The running best after the starting positions `0 .. n - 1`, beginning from `best`. */
  function BestRunUpTo(sc: seq<Card>, n: nat, best: seq<Card>): seq<Card>
    requires n <= |sc|
  {
    if n == 0 then
      best
    else
      var b := BestRunUpTo(sc, n - 1, best);
      var straight := RunFrom(sc, n - 1);
      if |straight| > |b| then straight else b
  }

  predicate IsWheelRank(r: Rank) {
    r == Ace || r == Two || r == Three || r == Four || r == Five
  }

  /** Some card of the suit has rank `r`. */
  predicate HasRank(sc: seq<Card>, r: Rank) {
    exists c :: c in sc && c.rank == r
  }

  predicate HasWheel(sc: seq<Card>) {
    HasRank(sc, Ace) && HasRank(sc, Two) && HasRank(sc, Three) && HasRank(sc, Four) && HasRank(sc, Five)
  }

  /** The suit's cards ranked ace to five, in their sorted order. */
  function WheelOf(sc: seq<Card>): (w: seq<Card>)
    ensures |w| <= |sc|
  {
    if sc == [] then [] else (if IsWheelRank(sc[0].rank) then [sc[0]] else []) + WheelOf(sc[1..])
  }

  /** The five wheel cards of a suit, in ascending value order. */
  function WheelCards(s: Suit): seq<Card> {
    [Card(Two, s), Card(Three, s), Card(Four, s), Card(Five, s), Card(Ace, s)]
  }

  /** What one suit's sorted cards `sc` do to the running best. */
  function SuitStraight(sc: seq<Card>, best: seq<Card>): seq<Card> {
    if |sc| < 3 then
      best
    else
      var b := BestRunUpTo(sc, |sc|, best);
      if HasWheel(sc) && |WheelOf(sc)| >= |b| then WheelOf(sc) else b
  }

  /** The running best after the suits of `order`. */
  function StraightAmong(cards: seq<Card>, order: seq<Suit>): seq<Card>
    decreases |order|
  {
    if order == [] then
      []
    else
      SuitStraight(Ascending(OfSuit(cards, order[|order| - 1])), StraightAmong(cards, order[..|order| - 1]))
  }

  /** The straight flush the source returns. */
  function LongestStraightFlush(cards: seq<Card>): seq<Card> {
    StraightAmong(cards, SuitOrder(cards))
  }

  /** Consecutive cards differ in value by exactly one. */
  predicate IsRun(r: seq<Card>) {
    forall k :: 0 <= k < |r| - 1 ==> CardValue(r[k + 1]) == CardValue(r[k]) + 1
  }

  // ----- the candidates of one suit are cards of that suit

  lemma {:induction false} RunAfterSubMultiset(sc: seq<Card>, j: nat, cur: int)
    requires j <= |sc|
    ensures multiset(RunAfter(sc, j, cur)) <= multiset(sc[j..])
    decreases |sc| - j
  {
    if j < |sc| {
      assert sc[j..] == [sc[j]] + sc[j + 1..];
      var v := CardValue(sc[j]);
      if v == cur + 1 {
        RunAfterSubMultiset(sc, j + 1, v);
      } else if v <= cur + 1 {
        RunAfterSubMultiset(sc, j + 1, cur);
      }
    }
  }

  lemma RunFromSubMultiset(sc: seq<Card>, i: nat)
    requires i < |sc|
    ensures multiset(RunFrom(sc, i)) <= multiset(sc)
  {
    RunAfterSubMultiset(sc, i + 1, CardValue(sc[i]));
    assert sc == sc[..i] + [sc[i]] + sc[i + 1..];
  }

  lemma {:induction false} WheelOfCounts(sc: seq<Card>, c: Card)
    ensures multiset(WheelOf(sc))[c] == if IsWheelRank(c.rank) then multiset(sc)[c] else 0
  {
    if sc != [] {
      assert sc == [sc[0]] + sc[1..];
      WheelOfCounts(sc[1..], c);
    }
  }

  lemma WheelOfSubMultiset(sc: seq<Card>)
    ensures multiset(WheelOf(sc)) <= multiset(sc)
  {
    forall c ensures multiset(WheelOf(sc))[c] <= multiset(sc)[c] {
      WheelOfCounts(sc, c);
    }
  }

  lemma {:induction false} BestRunUpToWithin(sc: seq<Card>, n: nat, best: seq<Card>)
    requires n <= |sc|
    ensures BestRunUpTo(sc, n, best) == best || multiset(BestRunUpTo(sc, n, best)) <= multiset(sc)
  {
    if n > 0 {
      var b := BestRunUpTo(sc, n - 1, best);
      var straight := RunFrom(sc, n - 1);
      BestRunUpToWithin(sc, n - 1, best);
      RunFromSubMultiset(sc, n - 1);
      assert BestRunUpTo(sc, n, best) == if |straight| > |b| then straight else b;
    }
  }

  /** One suit either leaves the running best alone or replaces it by some of its own cards. */
  lemma SuitStraightWithin(sc: seq<Card>, best: seq<Card>)
    ensures SuitStraight(sc, best) == best || (|sc| >= 3 && multiset(SuitStraight(sc, best)) <= multiset(sc))
  {
    if |sc| >= 3 {
      BestRunUpToWithin(sc, |sc|, best);
      WheelOfSubMultiset(sc);
    }
  }

  /**
   * `r` is empty, or made of cards of the hand that share the suit of its first card, a suit of
   * which the hand holds at least three cards.
   */
  ghost predicate FromOneSuit(cards: seq<Card>, r: seq<Card>) {
    r == [] || (|OfSuit(cards, r[0].suit)| >= 3 && multiset(r) <= multiset(OfSuit(cards, r[0].suit)))
  }

  /** Cards taken from the sorted group of suit `s` are cards of suit `s` of the hand. */
  lemma FromSuitGroup(cards: seq<Card>, s: Suit, r: seq<Card>)
    requires |Ascending(OfSuit(cards, s))| >= 3 && multiset(r) <= multiset(Ascending(OfSuit(cards, s)))
    ensures FromOneSuit(cards, r)
  {
    if r != [] {
      var g := OfSuit(cards, s);
      assert r[0] in multiset(r);
      assert r[0] in multiset(g);
      var k :| 0 <= k < |g| && g[k] == r[0];
    }
  }

  lemma {:induction false} StraightAmongFromOneSuit(cards: seq<Card>, order: seq<Suit>)
    ensures FromOneSuit(cards, StraightAmong(cards, order))
    decreases |order|
  {
    if order != [] {
      var s := order[|order| - 1];
      var rest := StraightAmong(cards, order[..|order| - 1]);
      StraightAmongFromOneSuit(cards, order[..|order| - 1]);
      SuitStraightWithin(Ascending(OfSuit(cards, s)), rest);
      if StraightAmong(cards, order) != rest {
        FromSuitGroup(cards, s, StraightAmong(cards, order));
      }
    }
  }

  /**
   * The straight flush consists of cards of the hand that share one suit, and it is never longer
   * than the longest flush.
   */
  lemma StraightFlushFromHand(cards: seq<Card>)
    ensures forall k :: 0 <= k < |LongestStraightFlush(cards)| ==>
      LongestStraightFlush(cards)[k].suit == LongestStraightFlush(cards)[0].suit
    ensures multiset(LongestStraightFlush(cards)) <= multiset(cards)
    ensures |LongestStraightFlush(cards)| <= |LongestFlush(cards)|
    ensures LongestStraightFlush(cards) != [] ==> |OfSuit(cards, LongestStraightFlush(cards)[0].suit)| >= 3
  {
    var r := LongestStraightFlush(cards);
    StraightAmongFromOneSuit(cards, SuitOrder(cards));
    if r != [] {
      var s := r[0].suit;
      var g := OfSuit(cards, s);
      OfSuitSubMultiset(cards, s);
      forall k | 0 <= k < |r| ensures r[k].suit == s {
        assert r[k] in multiset(r);
        assert r[k] in multiset(g);
        var m :| 0 <= m < |g| && g[m] == r[k];
      }
      SubMultisetLength(r, g);
      LongestFlushIsLongest(cards);
    }
  }

  // ----- emptiness and lower bounds

  lemma {:induction false} BestRunUpToKeeps(sc: seq<Card>, n: nat, best: seq<Card>)
    requires n <= |sc|
    ensures |BestRunUpTo(sc, n, best)| >= |best|
    ensures n > 0 ==> |BestRunUpTo(sc, n, best)| >= 1
  {
    if n > 0 {
      BestRunUpToKeeps(sc, n - 1, best);
    }
  }

  lemma {:induction false} BestRunUpToCovers(sc: seq<Card>, n: nat, best: seq<Card>, i: nat)
    requires i < n <= |sc|
    ensures |BestRunUpTo(sc, n, best)| >= |RunFrom(sc, i)|
  {
    if i < n - 1 {
      BestRunUpToCovers(sc, n - 1, best, i);
    }
  }

  lemma SuitStraightKeeps(sc: seq<Card>, best: seq<Card>)
    ensures |SuitStraight(sc, best)| >= |best|
    ensures |sc| >= 3 ==> |SuitStraight(sc, best)| >= 1
    ensures |sc| < 3 ==> SuitStraight(sc, best) == best
  {
    BestRunUpToKeeps(sc, |sc|, best);
  }

  lemma SuitStraightCovers(sc: seq<Card>, best: seq<Card>, i: nat)
    requires 3 <= |sc| && i < |sc|
    ensures |SuitStraight(sc, best)| >= |RunFrom(sc, i)|
  {
    BestRunUpToCovers(sc, |sc|, best, i);
  }

  /** The wheel, when present, is a candidate. */
  lemma SuitStraightCoversWheel(sc: seq<Card>, best: seq<Card>)
    requires 3 <= |sc| && HasWheel(sc)
    ensures |SuitStraight(sc, best)| >= |WheelOf(sc)|
  {
  }

  /** A suit holding three or more of the hand's cards always yields a straight flush. */
  lemma StraightFlushFoundWhenThree(cards: seq<Card>, s: Suit)
    requires |OfSuit(cards, s)| >= 3
    ensures LongestStraightFlush(cards) != []
  {
    var order := SuitOrder(cards);
    var sc := Ascending(OfSuit(cards, s));
    assert s in order;
    var m :| 0 <= m < |order| && order[m] == s;
    SuitStraightKeeps(sc, StraightAmong(cards, order[..m]));
    StraightAmongAt(cards, order, m);
  }

  // ----- shape

  lemma RunFromIsRun(sc: seq<Card>, i: nat)
    requires i < |sc|
    ensures IsRun(RunFrom(sc, i))
  {
    var r := RunFrom(sc, i);
    var v := CardValue(sc[i]);
    assert forall k :: 1 <= k < |r| ==> r[k] == RunAfter(sc, i + 1, v)[k - 1];
    assert forall k :: 0 <= k < |r| ==> CardValue(r[k]) == v + k;
  }

  /** The sorted group of a suit holds cards of that suit only. */
  lemma AscendingSuit(cards: seq<Card>, s: Suit)
    ensures forall k :: 0 <= k < |Ascending(OfSuit(cards, s))| ==> Ascending(OfSuit(cards, s))[k].suit == s
  {
    var g := OfSuit(cards, s);
    var sc := Ascending(g);
    forall k | 0 <= k < |sc| ensures sc[k].suit == s {
      assert sc[k] in multiset(sc);
      assert sc[k] in multiset(g);
      var m :| 0 <= m < |g| && g[m] == sc[k];
    }
  }

  /** A card of the hand lies in the sorted group of its suit. */
  lemma InSuitGroup(cards: seq<Card>, c: Card)
    requires c in cards
    ensures c in Ascending(OfSuit(cards, c.suit))
  {
    OfSuitCounts(cards, c.suit, c);
    assert c in multiset(cards);
    assert c in multiset(Ascending(OfSuit(cards, c.suit)));
  }

  /** In a hand without repeated cards, the sorted group of a suit is strictly ascending in value. */
  lemma AscendingStrict(cards: seq<Card>, s: Suit)
    requires NoDup(cards)
    ensures StrictlyDesc(Ascending(OfSuit(cards, s)), NegValue)
  {
    var g := OfSuit(cards, s);
    var sc := Ascending(g);
    OfSuitSubMultiset(cards, s);
    NoDupSubMultiset(cards, sc);
    AscendingSuit(cards, s);
    forall i, j | 0 <= i < j < |sc| ensures NegValue(sc[i]) > NegValue(sc[j]) {
      RankValueInjective(sc[i].rank, sc[j].rank);
    }
  }

  /** Strictly ordered by value means no card repeats. */
  lemma StrictNoDup(sc: seq<Card>)
    requires StrictlyDesc(sc, NegValue)
    ensures NoDup(sc)
  {
  }

  /** Cards drawn from the tail of a strictly ordered sequence lie below its head. */
  lemma BelowHead(sc: seq<Card>, w: seq<Card>)
    requires sc != [] && StrictlyDesc(sc, NegValue) && multiset(w) <= multiset(sc[1..])
    ensures forall k :: 0 <= k < |w| ==> NegValue(sc[0]) > NegValue(w[k])
  {
    var t := sc[1..];
    forall k | 0 <= k < |w| ensures NegValue(sc[0]) > NegValue(w[k]) {
      assert w[k] in multiset(w);
      assert w[k] in multiset(t);
      var m :| 0 <= m < |t| && t[m] == w[k];
      assert t[m] == sc[m + 1];
    }
  }

  /** Filtering keeps a strict order. */
  lemma {:induction false} WheelOfStrict(sc: seq<Card>)
    requires StrictlyDesc(sc, NegValue)
    ensures StrictlyDesc(WheelOf(sc), NegValue)
  {
    if sc != [] {
      var t := sc[1..];
      StrictlyDescTail(sc, NegValue);
      WheelOfStrict(t);
      var w := WheelOf(t);
      if IsWheelRank(sc[0].rank) {
        WheelOfSubMultiset(t);
        BelowHead(sc, w);
        StrictlyDescCons(sc[0], w, NegValue);
      }
    }
  }

  /** 2, 3, 4, 5, A is strictly ascending in value. */
  lemma WheelCardsStrict(s: Suit)
    ensures StrictlyDesc(WheelCards(s), NegValue)
  {
    var w := WheelCards(s);
    var values := [2, 3, 4, 5, 14];
    assert forall k :: 0 <= k < 5 ==> CardValue(w[k]) == values[k];
  }

  lemma WheelCardsCount(s: Suit, c: Card)
    ensures multiset(WheelCards(s))[c] == if c.suit == s && IsWheelRank(c.rank) then 1 else 0
  {
  }

  lemma WheelCardsCounts(sc: seq<Card>, s: Suit, c: Card)
    requires StrictlyDesc(sc, NegValue) && HasWheel(sc)
    requires forall k :: 0 <= k < |sc| ==> sc[k].suit == s
    ensures multiset(WheelOf(sc))[c] == multiset(WheelCards(s))[c]
  {
    WheelOfCounts(sc, c);
    WheelCardsCount(s, c);
    StrictNoDup(sc);
    NoDupCount(sc, c);
    if c.suit == s && IsWheelRank(c.rank) {
      var d :| d in sc && d.rank == c.rank;
      assert d == c;
    } else if c in sc {
      var k :| 0 <= k < |sc| && sc[k] == c;
    }
  }

  lemma WheelOfSameCards(sc: seq<Card>, s: Suit)
    requires StrictlyDesc(sc, NegValue) && HasWheel(sc)
    requires forall k :: 0 <= k < |sc| ==> sc[k].suit == s
    ensures multiset(WheelOf(sc)) == multiset(WheelCards(s))
  {
    var found, wheel := multiset(WheelOf(sc)), multiset(WheelCards(s));
    forall c ensures found[c] == wheel[c] {
      WheelCardsCounts(sc, s, c);
    }
    SameCounts(found, wheel);
  }

  /** Multisets with the same count for every element are equal. */
  lemma SameCounts(a: multiset<Card>, b: multiset<Card>)
    requires forall c :: a[c] == b[c]
    ensures a == b
  {
  }

  /** A strictly ascending suit group holding A, 2, 3, 4 and 5 filters to exactly those five cards. */
  lemma WheelExact(sc: seq<Card>, s: Suit)
    requires StrictlyDesc(sc, NegValue) && HasWheel(sc)
    requires forall k :: 0 <= k < |sc| ==> sc[k].suit == s
    ensures WheelOf(sc) == WheelCards(s)
  {
    WheelOfSameCards(sc, s);
    WheelOfStrict(sc);
    WheelCardsStrict(s);
    StrictlyDescUnique(WheelOf(sc), WheelCards(s), NegValue);
  }

  /** Consecutive values, or the wheel. */
  ghost predicate Shaped(r: seq<Card>) {
    IsRun(r) || (r != [] && r == WheelCards(r[0].suit))
  }

  lemma {:induction false} BestRunUpToShaped(sc: seq<Card>, n: nat, best: seq<Card>)
    requires n <= |sc| && Shaped(best)
    ensures Shaped(BestRunUpTo(sc, n, best))
  {
    if n > 0 {
      BestRunUpToShaped(sc, n - 1, best);
      RunFromIsRun(sc, n - 1);
    }
  }

  lemma {:induction false} StraightAmongShaped(cards: seq<Card>, order: seq<Suit>)
    requires NoDup(cards)
    ensures Shaped(StraightAmong(cards, order))
    decreases |order|
  {
    if order != [] {
      var s := order[|order| - 1];
      var sc := Ascending(OfSuit(cards, s));
      var best := StraightAmong(cards, order[..|order| - 1]);
      StraightAmongShaped(cards, order[..|order| - 1]);
      if |sc| >= 3 {
        BestRunUpToShaped(sc, |sc|, best);
        if HasWheel(sc) {
          AscendingStrict(cards, s);
          AscendingSuit(cards, s);
          WheelExact(sc, s);
        }
      }
    }
  }

  /**
   * In a hand without repeated cards the straight flush is either a run of consecutive values or
   * exactly the five cards A, 2, 3, 4, 5 of one suit.
   */
  lemma StraightFlushShape(cards: seq<Card>)
    requires NoDup(cards)
    ensures IsRun(LongestStraightFlush(cards)) ||
      (LongestStraightFlush(cards) != [] && LongestStraightFlush(cards) == WheelCards(LongestStraightFlush(cards)[0].suit))
  {
    StraightAmongShaped(cards, SuitOrder(cards));
  }

  // ----- maximality

  /** Some card at position `j` or later has value `v`. */
  predicate HasValue(sc: seq<Card>, j: nat, v: int) {
    exists p :: j <= p < |sc| && CardValue(sc[p]) == v
  }

  /**
   * On strictly ascending cards above `cur`, the greedy scan picks up every value
   * `cur + 1, ..., cur + m` that is present.
   */
  lemma {:induction false} RunAfterPicksUp(sc: seq<Card>, j: nat, cur: int, m: nat)
    requires StrictlyDesc(sc, NegValue) && j <= |sc|
    requires forall p :: j <= p < |sc| ==> CardValue(sc[p]) > cur
    requires forall v :: cur < v <= cur + m ==> HasValue(sc, j, v)
    ensures |RunAfter(sc, j, cur)| >= m
    decreases |sc| - j
  {
    if m > 0 {
      assert HasValue(sc, j, cur + 1);
      var p :| j <= p < |sc| && CardValue(sc[p]) == cur + 1;
      assert NegValue(sc[j]) >= NegValue(sc[p]);
      assert CardValue(sc[j]) == cur + 1;
      var next := j + 1;
      forall v | cur + 1 < v <= cur + 1 + (m - 1) ensures HasValue(sc, next, v) {
        assert HasValue(sc, j, v);
        var q :| j <= q < |sc| && CardValue(sc[q]) == v;
        assert j + 1 <= q;
      }
      forall q | j + 1 <= q < |sc| ensures CardValue(sc[q]) > cur + 1 {
        assert NegValue(sc[j]) > NegValue(sc[q]);
      }
      RunAfterPicksUp(sc, j + 1, cur + 1, m - 1);
    }
  }

  lemma {:induction false} RunValueAt(run: seq<Card>, k: nat)
    requires IsRun(run) && k < |run|
    ensures CardValue(run[k]) == CardValue(run[0]) + k
  {
    if k > 0 {
      RunValueAt(run, k - 1);
    }
  }

  /** Every run inside strictly ascending cards is covered by the scan from its first card. */
  lemma RunCovered(sc: seq<Card>, run: seq<Card>) returns (i: nat)
    requires StrictlyDesc(sc, NegValue) && run != [] && IsRun(run)
    requires forall k :: 0 <= k < |run| ==> run[k] in sc
    ensures i < |sc| && |RunFrom(sc, i)| >= |run|
  {
    assert run[0] in sc;
    i :| 0 <= i < |sc| && sc[i] == run[0];
    var v := CardValue(sc[i]);
    var next := i + 1;
    forall w | v < w <= v + (|run| - 1) ensures HasValue(sc, next, w) {
      var k := w - v;
      RunValueAt(run, k);
      assert run[k] in sc;
      var p :| 0 <= p < |sc| && sc[p] == run[k];
      assert NegValue(sc[p]) < NegValue(sc[i]);
      assert p > i;
    }
    forall p | i + 1 <= p < |sc| ensures CardValue(sc[p]) > v {
      assert NegValue(sc[i]) > NegValue(sc[p]);
    }
    RunAfterPicksUp(sc, i + 1, v, |run| - 1);
  }

  lemma {:induction false} StraightAmongMonotone(cards: seq<Card>, order: seq<Suit>, n: nat)
    requires n <= |order|
    ensures |StraightAmong(cards, order[..n])| <= |StraightAmong(cards, order)|
    decreases |order|
  {
    if n < |order| {
      var prefix := order[..|order| - 1];
      assert order[..n] == prefix[..n];
      StraightAmongMonotone(cards, prefix, n);
      SuitStraightKeeps(Ascending(OfSuit(cards, order[|order| - 1])), StraightAmong(cards, prefix));
    } else {
      assert order[..n] == order;
    }
  }

  /** The suit at position `m` of `order` contributes its candidates to the final length. */
  lemma StraightAmongAt(cards: seq<Card>, order: seq<Suit>, m: nat)
    requires m < |order|
    ensures |SuitStraight(Ascending(OfSuit(cards, order[m])), StraightAmong(cards, order[..m]))| <= |StraightAmong(cards, order)|
  {
    var upto := order[..m + 1];
    assert upto[..m] == order[..m];
    assert upto[m] == order[m];
    StraightAmongMonotone(cards, order, m + 1);
  }

  /**
   * In a hand without repeated cards, every run of consecutive values within a suit that holds at
   * least three cards is at most as long as the straight flush found.
   */
  lemma StraightFlushIsLongest(cards: seq<Card>, run: seq<Card>)
    requires NoDup(cards) && run != [] && IsRun(run)
    requires forall k :: 0 <= k < |run| ==> run[k] in cards && run[k].suit == run[0].suit
    requires |OfSuit(cards, run[0].suit)| >= 3
    ensures |run| <= |LongestStraightFlush(cards)|
  {
    var s := run[0].suit;
    var g := OfSuit(cards, s);
    var sc := Ascending(g);
    var order := SuitOrder(cards);
    assert s in order;
    var m :| 0 <= m < |order| && order[m] == s;
    AscendingStrict(cards, s);
    forall k | 0 <= k < |run| ensures run[k] in sc {
      InSuitGroup(cards, run[k]);
    }
    var i := RunCovered(sc, run);
    SuitStraightCovers(sc, StraightAmong(cards, order[..m]), i);
    StraightAmongAt(cards, order, m);
  }

  /** A suit holding A, 2, 3, 4 and 5 gives a straight flush of at least five cards. */
  lemma StraightFlushSeesWheel(cards: seq<Card>, s: Suit)
    requires NoDup(cards)
    requires Card(Ace, s) in cards && Card(Two, s) in cards && Card(Three, s) in cards
    requires Card(Four, s) in cards && Card(Five, s) in cards
    ensures |LongestStraightFlush(cards)| >= 5
  {
    var sc := Ascending(OfSuit(cards, s));
    var order := SuitOrder(cards);
    InSuitGroup(cards, Card(Ace, s));
    InSuitGroup(cards, Card(Two, s));
    InSuitGroup(cards, Card(Three, s));
    InSuitGroup(cards, Card(Four, s));
    InSuitGroup(cards, Card(Five, s));
    assert HasWheel(sc);
    AscendingStrict(cards, s);
    AscendingSuit(cards, s);
    WheelExact(sc, s);
    assert |sc| >= 5;
    assert s in order;
    var m :| 0 <= m < |order| && order[m] == s;
    SuitStraightCoversWheel(sc, StraightAmong(cards, order[..m]));
    StraightAmongAt(cards, order, m);
  }

  /** A-2-3-4-5-6 of one suit, in the ascending value order the source sorts a suit group into. */
  function AceToSix(): seq<Card> {
    [Card(Two, Spades), Card(Three, Spades), Card(Four, Spades), Card(Five, Spades), Card(Six, Spades),
     Card(Ace, Spades)]
  }

  /** The scan of A-2-3-4-5-6 finds the run 2-6 first and nothing longer. */
  lemma AceToSixBestRun()
    ensures |BestRunUpTo(AceToSix(), 6, [])| == 5
  {
    var sc := AceToSix();
    assert RunAfter(sc, 6, 14) == [];
    assert RunAfter(sc, 5, 6) == [];
    assert RunAfter(sc, 5, 5) == [];
    assert RunFrom(sc, 5) == [sc[5]];
    assert RunFrom(sc, 4) == [sc[4]];
    assert RunFrom(sc, 3) == [sc[3], sc[4]];
    assert RunFrom(sc, 2) == [sc[2], sc[3], sc[4]];
    assert RunFrom(sc, 1) == [sc[1], sc[2], sc[3], sc[4]];
    assert RunFrom(sc, 0) == [sc[0], sc[1], sc[2], sc[3], sc[4]];
    assert |BestRunUpTo(sc, 1, [])| == 5;
    assert BestRunUpTo(sc, 6, []) == BestRunUpTo(sc, 1, []);
  }

  /** A-2-3-4-5-6 holds the wheel, and filtering it leaves exactly the five wheel cards. */
  lemma AceToSixWheel()
    ensures HasWheel(AceToSix()) && WheelOf(AceToSix()) == WheelCards(Spades)
  {
    var sc := AceToSix();
    assert WheelOf(sc) == WheelCards(Spades);
    assert sc[5] in sc && sc[0] in sc && sc[1] in sc && sc[2] in sc && sc[3] in sc;
  }

  /**
   * A-2-3-4-5-6 of one suit: the run 2-6 is found first, and the wheel, being as long, replaces
   * it. Either way the straight flush has five cards, not six.
   */
  lemma AceToSixIsFive()
    ensures |BestRunUpTo(AceToSix(), |AceToSix()|, [])| == 5 && SuitStraight(AceToSix(), []) == WheelCards(Spades)
  {
    AceToSixBestRun();
    AceToSixWheel();
  }

  /** One more suit of `order` processed. */
  lemma StraightAmongStep(cards: seq<Card>, order: seq<Suit>, k: nat)
    requires k < |order|
    ensures StraightAmong(cards, order[..k + 1]) ==
      SuitStraight(Ascending(OfSuit(cards, order[k])), StraightAmong(cards, order[..k]))
  {
    var upto := order[..k + 1];
    assert upto[..k] == order[..k];
    assert upto[k] == order[k];
  }

  /** The inner loop of `findLongestStraightFlush`: the straight built from position `i`. */
  method ScanFrom(suitCards: seq<Card>, i: nat) returns (straight: seq<Card>)
    requires i < |suitCards|
    ensures straight == RunFrom(suitCards, i)
  {
    straight := [suitCards[i]];
    var currentValue := CardValue(suitCards[i]);
    var j := i + 1;
    while j < |suitCards|
      invariant i + 1 <= j <= |suitCards|
      invariant straight + RunAfter(suitCards, j, currentValue) == RunFrom(suitCards, i)
    {
      var nextValue := CardValue(suitCards[j]);
      if nextValue == currentValue + 1 {
        straight := straight + [suitCards[j]];
        currentValue := nextValue;
      } else if nextValue > currentValue + 1 {
        break;
      }
      j := j + 1;
    }
  }

  /** The body of the loop over suits, for a suit with at least three cards. */
  method ScanSuit(suitCards: seq<Card>, best: seq<Card>) returns (longest: seq<Card>)
    requires |suitCards| >= 3
    ensures longest == SuitStraight(suitCards, best)
  {
    longest := best;
    for i := 0 to |suitCards|
      invariant longest == BestRunUpTo(suitCards, i, best)
    {
      var straight := ScanFrom(suitCards, i);
      if |straight| > |longest| {
        longest := straight;
      }
    }
    var hasAce := HasRank(suitCards, Ace);
    var hasTwo := HasRank(suitCards, Two);
    var hasThree := HasRank(suitCards, Three);
    var hasFour := HasRank(suitCards, Four);
    var hasFive := HasRank(suitCards, Five);
    if hasAce && hasTwo && hasThree && hasFour && hasFive {
      var wheelStraight := WheelOf(suitCards);
      if |wheelStraight| >= |longest| {
        longest := wheelStraight;
      }
    }
  }

  /** `findLongestStraightFlush`. */
  method FindLongestStraightFlush(cards: seq<Card>) returns (longestStraightFlush: seq<Card>)
    ensures longestStraightFlush == LongestStraightFlush(cards)
  {
    var suitGroups, order := GroupBySuit(cards);
    longestStraightFlush := [];
    for k := 0 to |order|
      invariant longestStraightFlush == StraightAmong(cards, order[..k])
    {
      StraightAmongStep(cards, order, k);
      var suitCards := Ascending(suitGroups[order[k]]);
      if |suitCards| < 3 {
        continue;
      }
      longestStraightFlush := ScanSuit(suitCards, longestStraightFlush);
    }
    assert order[..|order|] == order;
  }
}
