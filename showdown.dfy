/**
 * `dealerQualifies` and `compareFlushes`: the dealer needs a flush of three or more cards with a
 * nine or better; flushes compare by length first, then card by card from the highest value down.
 */
module Showdown {
  import opened Sorting
  import opened Cards

  /** The highest rank value among the cards of a non-empty flush. */
  function MaxValue(f: seq<Card>): (m: int)
    requires f != []
    ensures exists k :: 0 <= k < |f| && CardValue(f[k]) == m
    ensures forall k :: 0 <= k < |f| ==> CardValue(f[k]) <= m
    decreases |f|
  {
    if |f| == 1 then
      CardValue(f[0])
    else
      var rest := MaxValue(f[1..]);
      assert forall k :: 1 <= k < |f| ==> f[k] == f[1..][k - 1];
      if CardValue(f[0]) >= rest then CardValue(f[0]) else rest
  }

  /** `dealerQualifies`: at least three cards, one of them a nine or better. */
  function DealerQualifies(dealerFlush: seq<Card>): (q: bool)
    ensures q <==> |dealerFlush| >= 3 && exists k :: 0 <= k < |dealerFlush| && CardValue(dealerFlush[k]) >= 9
  {
    if |dealerFlush| < 3 then false else MaxValue(dealerFlush) >= 9
  }

  datatype Outcome = Win | Lose | Push

  /** The outcome seen from the other side of the table. */
  function Flip(o: Outcome): Outcome {
    match o
    case Win => Lose
    case Lose => Win
    case Push => Push
  }

  /** The values of the cards, in order. */
  function Values(s: seq<Card>): (v: seq<int>)
    ensures |v| == |s| && forall k :: 0 <= k < |s| ==> v[k] == CardValue(s[k])
  {
    seq(|s|, k requires 0 <= k < |s| => CardValue(s[k]))
  }

  /** The loop over the common length: the first differing value decides, otherwise a push. */
  function CompareValues(p: seq<int>, d: seq<int>): Outcome
    decreases |p|
  {
    if p == [] || d == [] then Push
    else if p[0] > d[0] then Win
    else if p[0] < d[0] then Lose
    else CompareValues(p[1..], d[1..])
  }

  /** `compareFlushes` as a value: the longer flush wins, equal lengths go to the values sorted high to low. */
  function Compare(playerFlush: seq<Card>, dealerFlush: seq<Card>): (r: Outcome)
    ensures |playerFlush| > |dealerFlush| ==> r == Win
    ensures |playerFlush| < |dealerFlush| ==> r == Lose
    ensures r == Push ==> |playerFlush| == |dealerFlush|
  {
    if |playerFlush| > |dealerFlush| then Win
    else if |playerFlush| < |dealerFlush| then Lose
    else CompareValues(Values(SortDesc(playerFlush, CardValue)), Values(SortDesc(dealerFlush, CardValue)))
  }

  lemma {:induction false} CompareValuesFlip(p: seq<int>, d: seq<int>)
    ensures CompareValues(d, p) == Flip(CompareValues(p, d))
    decreases |p|
  {
    if p != [] && d != [] && p[0] == d[0] {
      CompareValuesFlip(p[1..], d[1..]);
    }
  }

  /** Swapping the two hands swaps winner and loser and keeps a push. */
  lemma CompareAntisymmetric(playerFlush: seq<Card>, dealerFlush: seq<Card>)
    ensures Compare(dealerFlush, playerFlush) == Flip(Compare(playerFlush, dealerFlush))
  {
    if |playerFlush| == |dealerFlush| {
      CompareValuesFlip(Values(SortDesc(playerFlush, CardValue)), Values(SortDesc(dealerFlush, CardValue)));
    }
  }

  /** On equal lengths the scan pushes exactly when the value sequences are equal. */
  lemma {:induction false} CompareValuesPush(p: seq<int>, d: seq<int>)
    requires |p| == |d|
    ensures CompareValues(p, d) == Push <==> p == d
    decreases |p|
  {
    if p != [] {
      CompareValuesPush(p[1..], d[1..]);
      assert p == [p[0]] + p[1..] && d == [d[0]] + d[1..];
    }
  }

  /** `p` beats `d` at position `i`: equal before it, higher at it. */
  predicate WinsAt(p: seq<int>, d: seq<int>, i: int) {
    0 <= i < |p| && i < |d| && p[..i] == d[..i] && p[i] > d[i]
  }

  /** The scan reports a win exactly when there is a first difference and it favours `p`. */
  lemma {:induction false} CompareValuesWin(p: seq<int>, d: seq<int>)
    ensures CompareValues(p, d) == Win <==> exists i :: WinsAt(p, d, i)
    decreases |p|
  {
    if p != [] && d != [] {
      if p[0] > d[0] {
        assert WinsAt(p, d, 0);
      } else if p[0] < d[0] {
        forall i | 0 < i <= |p| && i <= |d| ensures p[..i] != d[..i] {
          assert p[..i][0] != d[..i][0];
        }
      } else {
        var p', d' := p[1..], d[1..];
        CompareValuesWin(p', d');
        forall i | WinsAt(p', d', i) ensures WinsAt(p, d, i + 1) {
          assert p[..i + 1] == [p[0]] + p'[..i] && d[..i + 1] == [d[0]] + d'[..i];
        }
        forall i | WinsAt(p, d, i) ensures i > 0 && WinsAt(p', d', i - 1) {
          assert i != 0;
          assert p'[..i - 1] == p[..i][1..] && d'[..i - 1] == d[..i][1..];
        }
      }
    }
  }

  /**
   * Two flushes of equal length push exactly when their values, sorted high to low, agree; the
   * player wins exactly when the first differing value is the player's higher one.
   */
  lemma CompareEqualLength(playerFlush: seq<Card>, dealerFlush: seq<Card>)
    requires |playerFlush| == |dealerFlush|
    ensures Compare(playerFlush, dealerFlush) == Push <==>
      Values(SortDesc(playerFlush, CardValue)) == Values(SortDesc(dealerFlush, CardValue))
    ensures Compare(playerFlush, dealerFlush) == Win <==>
      exists i :: WinsAt(Values(SortDesc(playerFlush, CardValue)), Values(SortDesc(dealerFlush, CardValue)), i)
  {
    var p := Values(SortDesc(playerFlush, CardValue));
    var d := Values(SortDesc(dealerFlush, CardValue));
    CompareValuesPush(p, d);
    CompareValuesWin(p, d);
  }

  /** `compareFlushes`: length first, then the sorted values until one differs. */
  method CompareFlushes(playerFlush: seq<Card>, dealerFlush: seq<Card>) returns (result: Outcome)
    ensures result == Compare(playerFlush, dealerFlush)
  {
    if |playerFlush| > |dealerFlush| {
      return Win;
    }
    if |playerFlush| < |dealerFlush| {
      return Lose;
    }
    var playerSorted := SortDesc(playerFlush, CardValue);
    var dealerSorted := SortDesc(dealerFlush, CardValue);
    ghost var p := Values(playerSorted);
    ghost var d := Values(dealerSorted);
    assert Compare(playerFlush, dealerFlush) == CompareValues(p, d);
    var i := 0;
    while i < |playerSorted| && i < |dealerSorted|
      invariant 0 <= i <= |playerSorted| == |dealerSorted|
      invariant CompareValues(p[i..], d[i..]) == CompareValues(p, d)
    {
      assert p[i..][1..] == p[i + 1..] && d[i..][1..] == d[i + 1..];
      var playerValue := CardValue(playerSorted[i]);
      var dealerValue := CardValue(dealerSorted[i]);
      assert p[i..][0] == playerValue && d[i..][0] == dealerValue;
      if playerValue > dealerValue {
        return Win;
      }
      if playerValue < dealerValue {
        return Lose;
      }
      i := i + 1;
    }
    return Push;
  }
}
