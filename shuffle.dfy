/**
 * `shuffleDeck`: a Fisher-Yates shuffle of a copy of the deck. The random source is replaced by
 * the sequence of indices it would produce: `draws[k]` is the `j` chosen at the k-th step, when
 * `i == n - 1 - k`, and a random index drawn for step `i` always lies in `[0, i]`.
 */
module Shuffle {
  import opened Seqs
  import opened Cards

  /** The draws cover every step of the loop and each lies in `[0, i]` for its step `i`. */
  predicate ValidDraws(draws: seq<nat>, n: nat) {
    |draws| >= n - 1 && forall k :: 0 <= k < n - 1 ==> draws[k] <= n - 1 - k
  }

  /** Exchanges the elements at positions `i` and `j`. */
  function Swap(s: seq<Card>, i: nat, j: nat): (r: seq<Card>)
    requires i < |s| && j < |s|
    ensures |r| == |s| && r[i] == s[j] && r[j] == s[i]
    ensures forall p :: 0 <= p < |s| && p != i && p != j ==> r[p] == s[p]
  {
    s[i := s[j]][j := s[i]]
  }

  lemma SwapPermutes(s: seq<Card>, i: nat, j: nat)
    requires i < |s| && j < |s|
    ensures multiset(Swap(s, i, j)) == multiset(s)
  {
  }

  /** The remaining steps `i, i - 1, ..., 1` of the shuffle, applied to `s`. */
  function ShuffleFrom(s: seq<Card>, draws: seq<nat>, i: int): (r: seq<Card>)
    requires i < |s| && ValidDraws(draws, |s|)
    ensures |r| == |s|
    decreases i
  {
    if i <= 0 then s else ShuffleFrom(Swap(s, i, draws[|s| - 1 - i]), draws, i - 1)
  }

  /** The whole shuffle: steps `n - 1` down to `1`. */
  function FisherYates(s: seq<Card>, draws: seq<nat>): seq<Card>
    requires ValidDraws(draws, |s|)
  {
    ShuffleFrom(s, draws, |s| - 1)
  }

  /** The remaining steps permute their input. */
  lemma {:induction false} ShuffleFromPermutes(s: seq<Card>, draws: seq<nat>, i: int)
    requires i < |s| && ValidDraws(draws, |s|)
    ensures |ShuffleFrom(s, draws, i)| == |s|
    ensures multiset(ShuffleFrom(s, draws, i)) == multiset(s)
    decreases i
  {
    if i > 0 {
      SwapPermutes(s, i, draws[|s| - 1 - i]);
      ShuffleFromPermutes(Swap(s, i, draws[|s| - 1 - i]), draws, i - 1);
    }
  }

  /** The shuffle returns a permutation of the deck it was given. */
  lemma FisherYatesPermutes(s: seq<Card>, draws: seq<nat>)
    requires ValidDraws(draws, |s|)
    ensures |FisherYates(s, draws)| == |s|
    ensures multiset(FisherYates(s, draws)) == multiset(s)
  {
    ShuffleFromPermutes(s, draws, |s| - 1);
  }

  /** Positions above `i` are no longer touched by the remaining steps. */
  lemma {:induction false} ShuffleFromKeepsTop(s: seq<Card>, draws: seq<nat>, i: int, p: int)
    requires 0 <= p && i < p < |s| && ValidDraws(draws, |s|)
    ensures ShuffleFrom(s, draws, i)[p] == s[p]
    decreases i
  {
    if i > 0 {
      ShuffleFromKeepsTop(Swap(s, i, draws[|s| - 1 - i]), draws, i - 1, p);
    }
  }

  /**
   * On a deck of distinct cards, different draws give different orders: the remaining steps
   * determine the draws they consumed.
   */
  lemma {:induction false} ShuffleFromInjective(s: seq<Card>, d1: seq<nat>, d2: seq<nat>, i: int)
    requires i < |s| && ValidDraws(d1, |s|) && ValidDraws(d2, |s|) && NoDup(s)
    requires ShuffleFrom(s, d1, i) == ShuffleFrom(s, d2, i)
    ensures forall k :: |s| - 1 - i <= k < |s| - 1 ==> d1[k] == d2[k]
    decreases i
  {
    if i > 0 {
      var k := |s| - 1 - i;
      var t1 := Swap(s, i, d1[k]);
      var t2 := Swap(s, i, d2[k]);
      ShuffleFromKeepsTop(t1, d1, i - 1, i);
      ShuffleFromKeepsTop(t2, d2, i - 1, i);
      assert s[d1[k]] == s[d2[k]];
      assert d1[k] == d2[k];
      SwapPermutes(s, i, d1[k]);
      NoDupSubMultiset(s, t1);
      ShuffleFromInjective(t1, d1, d2, i - 1);
    }
  }

  /**
   * Equal shuffles of a deck of distinct cards come from draw sequences that agree on their first
   * `n - 1` entries, the only ones the shuffle uses.
   */
  lemma FisherYatesInjective(s: seq<Card>, d1: seq<nat>, d2: seq<nat>)
    requires ValidDraws(d1, |s|) && ValidDraws(d2, |s|) && NoDup(s)
    requires FisherYates(s, d1) == FisherYates(s, d2)
    ensures forall k :: 0 <= k < |s| - 1 ==> d1[k] == d2[k]
  {
    ShuffleFromInjective(s, d1, d2, |s| - 1);
  }

  /**
   * `shuffleDeck`: copies the deck into a fresh array and swaps in place from the last position
   * down to position 1. The argument is a value and stays as it was.
   */
  method ShuffleDeck(deck: seq<Card>, draws: seq<nat>) returns (shuffled: seq<Card>)
    requires ValidDraws(draws, |deck|)
    ensures shuffled == FisherYates(deck, draws)
    ensures |shuffled| == |deck| && multiset(shuffled) == multiset(deck)
  {
    var a := new Card[|deck|](k requires 0 <= k < |deck| => deck[k]);
    assert a[..] == deck;
    var i := a.Length - 1;
    while i > 0
      invariant -1 <= i < a.Length
      invariant ShuffleFrom(a[..], draws, i) == FisherYates(deck, draws)
    {
      var j := draws[a.Length - 1 - i];
      ghost var before := a[..];
      a[i], a[j] := a[j], a[i];
      assert a[..] == Swap(before, i, j);
      i := i - 1;
    }
    shuffled := a[..];
    FisherYatesPermutes(deck, draws);
  }
}
