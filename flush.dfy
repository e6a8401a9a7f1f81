/**
 * `findLongestFlush`: the cards of the hand's most numerous suit, highest value first.
 *
 * The source groups the cards in a dictionary keyed by suit; iterating over it visits the suits in
 * the order they were first inserted, which is the order in which they first appear in the hand.
 * `SuitOrder` is that order and `OfSuit` is one group.
 */
module Flush {
  import opened Seqs
  import opened Sorting
  import opened Cards

  /** The cards of suit `s`, in hand order: one entry of the suit dictionary. */
  function OfSuit(cards: seq<Card>, s: Suit): (g: seq<Card>)
    ensures forall k :: 0 <= k < |g| ==> g[k].suit == s
    ensures |g| <= |cards|
  {
    if cards == [] then
      []
    else
      var last := cards[|cards| - 1];
      OfSuit(cards[..|cards| - 1], s) + (if last.suit == s then [last] else [])
  }

  /** A group holds exactly the hand's cards of its suit, each as often as the hand does. */
  lemma {:induction false} OfSuitCounts(cards: seq<Card>, s: Suit, c: Card)
    ensures multiset(OfSuit(cards, s))[c] == if c.suit == s then multiset(cards)[c] else 0
  {
    if cards != [] {
      var last := cards[|cards| - 1];
      assert cards == cards[..|cards| - 1] + [last];
      OfSuitCounts(cards[..|cards| - 1], s, c);
    }
  }

  /** A group is part of the hand. */
  lemma OfSuitSubMultiset(cards: seq<Card>, s: Suit)
    ensures multiset(OfSuit(cards, s)) <= multiset(cards)
  {
    forall c ensures multiset(OfSuit(cards, s))[c] <= multiset(cards)[c] {
      OfSuitCounts(cards, s, c);
    }
  }

  /** A suit has a non-empty group exactly when some card of the hand has that suit. */
  lemma OfSuitNonEmpty(cards: seq<Card>, s: Suit, i: int)
    requires 0 <= i < |cards| && cards[i].suit == s
    ensures |OfSuit(cards, s)| > 0
  {
    OfSuitCounts(cards, s, cards[i]);
  }

  /** The suits of the hand in order of first appearance: the dictionary's key order. */
  function SuitOrder(cards: seq<Card>): (order: seq<Suit>)
    ensures NoDup(order)
    ensures forall s :: s in order <==> |OfSuit(cards, s)| > 0
  {
    if cards == [] then
      []
    else
      var prefix := cards[..|cards| - 1];
      var order := SuitOrder(prefix);
      var s := cards[|cards| - 1].suit;
      assert forall t :: t != s ==> OfSuit(cards, t) == OfSuit(prefix, t);
      if s in order then order else order + [s]
  }

  /** Position of the first card of suit `s` in the hand, or `|cards|` when there is none. */
  function FirstIndex(cards: seq<Card>, s: Suit): (i: nat)
    ensures i <= |cards|
    ensures i < |cards| ==> cards[i].suit == s
    ensures forall j :: 0 <= j < i && j < |cards| ==> cards[j].suit != s
  {
    if cards == [] then
      0
    else
      var prefix := cards[..|cards| - 1];
      var i := FirstIndex(prefix, s);
      if i < |prefix| then i
      else if cards[|cards| - 1].suit == s then |prefix|
      else |cards|
  }

  /** Suits are listed in the order in which their first card appears in the hand. */
  lemma {:induction false} SuitOrderByFirstAppearance(cards: seq<Card>)
    ensures forall s :: s in SuitOrder(cards) ==> FirstIndex(cards, s) < |cards|
    ensures forall a, b :: 0 <= a < b < |SuitOrder(cards)| ==>
      FirstIndex(cards, SuitOrder(cards)[a]) < FirstIndex(cards, SuitOrder(cards)[b])
  {
    if cards != [] {
      var prefix := cards[..|cards| - 1];
      SuitOrderByFirstAppearance(prefix);
      var o := SuitOrder(prefix);
      var s := cards[|cards| - 1].suit;
      forall t | t in o ensures FirstIndex(cards, t) == FirstIndex(prefix, t) < |prefix| {
      }
      var order := SuitOrder(cards);
      if s in o {
        assert order == o;
      } else {
        assert FirstIndex(prefix, s) == |prefix| by {
          if FirstIndex(prefix, s) < |prefix| {
            OfSuitNonEmpty(prefix, s, FirstIndex(prefix, s));
          }
        }
        assert FirstIndex(cards, s) == |prefix|;
        assert order == o + [s];
        forall a, b | 0 <= a < b < |order|
          ensures FirstIndex(cards, order[a]) < FirstIndex(cards, order[b])
        {
          assert order[a] == o[a] && o[a] in o;
          if b < |o| {
            assert order[b] == o[b] && o[b] in o;
          }
        }
      }
    }
  }

  /** The running best of the scan over `order`: a strictly larger group replaces it, sorted. */
  function BestFlushAmong(cards: seq<Card>, order: seq<Suit>): seq<Card>
    decreases |order|
  {
    if order == [] then
      []
    else
      var best := BestFlushAmong(cards, order[..|order| - 1]);
      var group := OfSuit(cards, order[|order| - 1]);
      if |group| > |best| then SortDesc(group, CardValue) else best
  }

  /** The flush the source returns. */
  function LongestFlush(cards: seq<Card>): seq<Card> {
    BestFlushAmong(cards, SuitOrder(cards))
  }

  /** Index into `order` of the suit whose group the scan keeps. */
  ghost function BestSuitIndex(cards: seq<Card>, order: seq<Suit>): (k: nat)
    requires order != []
    ensures k < |order|
    decreases |order|
  {
    if |order| == 1 then
      0
    else
      var k := BestSuitIndex(cards, order[..|order| - 1]);
      if |OfSuit(cards, order[|order| - 1])| > |OfSuit(cards, order[k])| then |order| - 1 else k
  }

  /** The kept suit's group is as large as any listed suit's, and no earlier suit's is as large. */
  lemma {:induction false} BestSuitIndexFirstLargest(cards: seq<Card>, order: seq<Suit>)
    requires order != []
    ensures FirstLargestAt(cards, order, BestSuitIndex(cards, order))
    decreases |order|
  {
    if |order| > 1 {
      var prefix := order[..|order| - 1];
      BestSuitIndexFirstLargest(cards, prefix);
      FirstLargestStep(cards, order, BestSuitIndex(cards, prefix));
    }
  }

  /** One more suit: it takes over exactly when its group is strictly larger than the kept one. */
  lemma FirstLargestStep(cards: seq<Card>, order: seq<Suit>, k: nat)
    requires 1 < |order| && k < |order| - 1 && FirstLargestAt(cards, order[..|order| - 1], k)
    ensures var n := |order| - 1;
      FirstLargestAt(cards, order, if |OfSuit(cards, order[n])| > |OfSuit(cards, order[k])| then n else k)
  {
    var n := |order| - 1;
    var prefix := order[..n];
    var last := |OfSuit(cards, order[n])|;
    var kept := |OfSuit(cards, order[k])|;
    assert prefix[k] == order[k];
    forall m | 0 <= m < n ensures |OfSuit(cards, order[m])| <= kept {
      assert prefix[m] == order[m];
    }
    forall m | 0 <= m < k ensures |OfSuit(cards, order[m])| < kept {
      assert prefix[m] == order[m];
    }
    if last > kept {
      assert FirstLargestAt(cards, order, n);
    } else {
      assert FirstLargestAt(cards, order, k);
    }
  }


  /**
   * When every listed suit has cards, the scan ends holding the sorted group of the suit that
   * `BestSuitIndex` designates.
   */
  lemma {:induction false} BestFlushAmongKeeps(cards: seq<Card>, order: seq<Suit>)
    requires forall m :: 0 <= m < |order| ==> |OfSuit(cards, order[m])| > 0
    ensures order == [] ==> BestFlushAmong(cards, order) == []
    ensures order != [] ==>
      BestFlushAmong(cards, order) == SortDesc(OfSuit(cards, order[BestSuitIndex(cards, order)]), CardValue)
    decreases |order|
  {
    if |order| > 1 {
      var n := |order| - 1;
      var prefix := order[..n];
      assert forall m :: 0 <= m < n ==> prefix[m] == order[m];
      BestFlushAmongKeeps(cards, prefix);
    }
  }

  /** `order[k]` has a group as large as any listed suit's, and no earlier suit's is as large. */
  ghost predicate FirstLargestAt(cards: seq<Card>, order: seq<Suit>, k: int)
    requires 0 <= k < |order|
  {
    && (forall m :: 0 <= m < |order| ==> |OfSuit(cards, order[m])| <= |OfSuit(cards, order[k])|)
    && (forall m :: 0 <= m < k ==> |OfSuit(cards, order[m])| < |OfSuit(cards, order[k])|)
  }

  /** For a non-empty hand the flush is the sorted group of the suit `BestSuitIndex` designates. */
  lemma LongestFlushChosen(cards: seq<Card>)
    requires cards != []
    ensures SuitOrder(cards) != []
    ensures LongestFlush(cards) ==
      SortDesc(OfSuit(cards, SuitOrder(cards)[BestSuitIndex(cards, SuitOrder(cards))]), CardValue)
    ensures LongestFlush(cards) != [] &&
      LongestFlush(cards)[0].suit == SuitOrder(cards)[BestSuitIndex(cards, SuitOrder(cards))]
    ensures FirstLargestAt(cards, SuitOrder(cards), BestSuitIndex(cards, SuitOrder(cards)))
  {
    var order := SuitOrder(cards);
    OfSuitNonEmpty(cards, cards[0].suit, 0);
    BestFlushAmongKeeps(cards, order);
    BestSuitIndexFirstLargest(cards, order);
    var k := BestSuitIndex(cards, order);
    var r := LongestFlush(cards);
    assert r[0] in multiset(r);
  }

  /** The flush is the whole group of one of the hand's suits; it is empty only for an empty hand. */
  lemma LongestFlushIsSuitGroup(cards: seq<Card>)
    ensures LongestFlush(cards) == [] <==> cards == []
    ensures LongestFlush(cards) != [] ==>
      LongestFlush(cards) == SortDesc(OfSuit(cards, LongestFlush(cards)[0].suit), CardValue)
    ensures forall k :: 0 <= k < |LongestFlush(cards)| ==> LongestFlush(cards)[k].suit == LongestFlush(cards)[0].suit
    ensures multiset(LongestFlush(cards)) <= multiset(cards)
  {
    if cards != [] {
      LongestFlushChosen(cards);
      var r := LongestFlush(cards);
      var s := r[0].suit;
      forall j | 0 <= j < |r| ensures r[j].suit == s {
        assert r[j] in multiset(r);
      }
      OfSuitSubMultiset(cards, s);
    }
  }

  /** Its length is the largest number of cards the hand holds in any one suit. */
  lemma LongestFlushIsLongest(cards: seq<Card>)
    ensures forall s :: |OfSuit(cards, s)| <= |LongestFlush(cards)|
    ensures cards != [] ==> |LongestFlush(cards)| == |OfSuit(cards, LongestFlush(cards)[0].suit)|
  {
    if cards != [] {
      LongestFlushChosen(cards);
      var order := SuitOrder(cards);
      forall s ensures |OfSuit(cards, s)| <= |LongestFlush(cards)| {
        if s in order {
          var m :| 0 <= m < |order| && order[m] == s;
        }
      }
    }
  }

  /**
   * Ties between suits go to the suit seen first in the hand, because a later group replaces the
   * running best only when it is strictly larger.
   */
  lemma LongestFlushTieBreak(cards: seq<Card>, s: Suit)
    requires LongestFlush(cards) != []
    requires s != LongestFlush(cards)[0].suit && |OfSuit(cards, s)| == |LongestFlush(cards)|
    ensures FirstIndex(cards, LongestFlush(cards)[0].suit) < FirstIndex(cards, s)
  {
    assert cards != [];
    LongestFlushChosen(cards);
    SuitOrderByFirstAppearance(cards);
    var order := SuitOrder(cards);
    var k := BestSuitIndex(cards, order);
    assert s in order;
    var m :| 0 <= m < |order| && order[m] == s;
    assert m != k;
    assert !(m < k);
  }

  /** Values never increase along the flush, and strictly decrease when the hand has no repeated card. */
  lemma LongestFlushSorted(cards: seq<Card>)
    ensures SortedDesc(LongestFlush(cards), CardValue)
    ensures NoDup(cards) ==> forall i, j :: 0 <= i < j < |LongestFlush(cards)| ==>
      CardValue(LongestFlush(cards)[i]) > CardValue(LongestFlush(cards)[j])
  {
    var r := LongestFlush(cards);
    LongestFlushIsSuitGroup(cards);
    if r != [] {
      assert SortedDesc(r, CardValue);
      if NoDup(cards) {
        NoDupSubMultiset(cards, r);
        forall i, j | 0 <= i < j < |r| ensures CardValue(r[i]) > CardValue(r[j]) {
          RankValueInjective(r[i].rank, r[j].rank);
        }
      }
    }
  }

  /**
   * The dictionary the source builds: the suits in first-appearance order and, for each, its
   * cards in hand order.
   */
  method GroupBySuit(cards: seq<Card>) returns (groups: map<Suit, seq<Card>>, order: seq<Suit>)
    ensures order == SuitOrder(cards)
    ensures forall s :: s in groups <==> s in order
    ensures forall s :: s in groups ==> groups[s] == OfSuit(cards, s)
  {
    groups := map[];
    order := [];
    for i := 0 to |cards|
      invariant order == SuitOrder(cards[..i])
      invariant forall s :: s in groups <==> s in order
      invariant forall s :: s in groups ==> groups[s] == OfSuit(cards[..i], s)
    {
      var card := cards[i];
      assert cards[..i + 1][..i] == cards[..i];
      if card.suit !in groups {
        groups := groups[card.suit := []];
        order := order + [card.suit];
      }
      groups := groups[card.suit := groups[card.suit] + [card]];
    }
    assert cards[..|cards|] == cards;
  }

  /** `findLongestFlush`. */
  method FindLongestFlush(cards: seq<Card>) returns (longestFlush: seq<Card>)
    ensures longestFlush == LongestFlush(cards)
  {
    var suitGroups, order := GroupBySuit(cards);
    longestFlush := [];
    for k := 0 to |order|
      invariant longestFlush == BestFlushAmong(cards, order[..k])
    {
      assert order[..k + 1][..k] == order[..k];
      var suit := order[k];
      if |suitGroups[suit]| > |longestFlush| {
        longestFlush := SortDesc(suitGroups[suit], CardValue);
      }
    }
    assert order[..|order|] == order;
  }
}
