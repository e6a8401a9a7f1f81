/**
 * `Array.prototype.sort` with a numeric comparator, as the simulator uses it: a stable sort by an
 * integer key. Sorting by descending `key` models a comparator that subtracts the first element's
 * key from the second's; an ascending sort is the same sort with the key negated.
 */
module Sorting {

  /** Keys never increase from left to right. */
  predicate SortedDesc<T>(s: seq<T>, key: T -> int) {
    forall i, j :: 0 <= i < j < |s| ==> key(s[i]) >= key(s[j])
  }

  /** Inserts `x` in front of the first element whose key does not exceed `x`'s. */
  function Insert<T>(x: T, s: seq<T>, key: T -> int): (r: seq<T>)
    ensures multiset(r) == multiset{x} + multiset(s)
    ensures |r| == |s| + 1
  {
    if s == [] || key(x) >= key(s[0]) then
      [x] + s
    else
      assert s == [s[0]] + s[1..];
      [s[0]] + Insert(x, s[1..], key)
  }

  /** Inserting an element no larger than `b` into elements no larger than `b` keeps them so. */
  lemma {:induction false} InsertBelow<T>(x: T, s: seq<T>, key: T -> int, b: int)
    requires key(x) <= b && forall k :: 0 <= k < |s| ==> key(s[k]) <= b
    ensures forall k :: 0 <= k < |Insert(x, s, key)| ==> key(Insert(x, s, key)[k]) <= b
  {
    if s != [] && key(x) < key(s[0]) {
      var t := s[1..];
      assert forall k :: 0 <= k < |t| ==> t[k] == s[k + 1];
      InsertBelow(x, t, key, b);
      var r := Insert(x, s, key);
      assert r == [s[0]] + Insert(x, t, key);
      assert forall k :: 1 <= k < |r| ==> r[k] == Insert(x, t, key)[k - 1];
    }
  }

  /** Inserting into a sorted sequence keeps it sorted. */
  lemma {:induction false} InsertSorted<T>(x: T, s: seq<T>, key: T -> int)
    requires SortedDesc(s, key)
    ensures SortedDesc(Insert(x, s, key), key)
  {
    if s != [] && key(x) < key(s[0]) {
      var t := s[1..];
      assert SortedDesc(t, key) by {
        forall i, j | 0 <= i < j < |t| ensures key(t[i]) >= key(t[j]) {
          assert t[i] == s[i + 1] && t[j] == s[j + 1];
        }
      }
      InsertSorted(x, t, key);
      var r' := Insert(x, t, key);
      assert forall k :: 0 <= k < |t| ==> key(t[k]) <= key(s[0]) by {
        forall k | 0 <= k < |t| ensures key(t[k]) <= key(s[0]) {
          assert t[k] == s[k + 1];
        }
      }
      InsertBelow(x, t, key, key(s[0]));
      var r := Insert(x, s, key);
      assert r == [s[0]] + r';
      forall i, j | 0 <= i < j < |r| ensures key(r[i]) >= key(r[j]) {
        if i > 0 {
          assert r[i] == r'[i - 1] && r[j] == r'[j - 1];
        } else {
          assert r[j] == r'[j - 1];
        }
      }
    }
  }

  /**
   * Stable insertion sort: the head of the input is placed before every element of equal key,
   * so elements of equal key keep their input order, as they do under a stable `sort`.
   */
  function SortDesc<T>(s: seq<T>, key: T -> int): (r: seq<T>)
    ensures multiset(r) == multiset(s)
    ensures |r| == |s|
    ensures SortedDesc(r, key)
  {
    if s == [] then
      []
    else
      assert s == [s[0]] + s[1..];
      var t := SortDesc(s[1..], key);
      InsertSorted(s[0], t, key);
      Insert(s[0], t, key)
  }

  /** Every element of the sorted sequence comes from the input, and conversely. */
  lemma SortDescMembers<T>(s: seq<T>, key: T -> int, x: T)
    ensures x in SortDesc(s, key) <==> x in s
  {
    assert x in SortDesc(s, key) <==> x in multiset(SortDesc(s, key));
    assert x in s <==> x in multiset(s);
  }

  /** Keys strictly decrease from left to right. */
  predicate StrictlyDesc<T>(s: seq<T>, key: T -> int) {
    forall i, j :: 0 <= i < j < |s| ==> key(s[i]) > key(s[j])
  }

  /** The tail of a strictly ordered sequence is strictly ordered. */
  lemma StrictlyDescTail<T>(a: seq<T>, key: T -> int)
    requires a != [] && StrictlyDesc(a, key)
    ensures StrictlyDesc(a[1..], key)
  {
    forall i, j | 0 <= i < j < |a[1..]| ensures key(a[1..][i]) > key(a[1..][j]) {
      assert a[1..][i] == a[i + 1] && a[1..][j] == a[j + 1];
    }
  }

  /** Two strictly ordered sequences with the same elements start with the same element. */
  lemma StrictlyDescSameHead<T>(a: seq<T>, b: seq<T>, key: T -> int)
    requires a != [] && b != []
    requires StrictlyDesc(a, key) && StrictlyDesc(b, key) && multiset(a) == multiset(b)
    ensures a[0] == b[0]
  {
    assert a[0] in multiset(b) && b[0] in multiset(a);
    var q :| 0 <= q < |b| && b[q] == a[0];
    var p :| 0 <= p < |a| && a[p] == b[0];
    assert p > 0 ==> key(a[p]) < key(a[0]);
    assert q > 0 ==> key(b[q]) < key(b[0]);
  }

  /** A sequence strictly ordered by key is determined by its elements. */
  lemma {:induction false} StrictlyDescUnique<T>(a: seq<T>, b: seq<T>, key: T -> int)
    requires StrictlyDesc(a, key) && StrictlyDesc(b, key) && multiset(a) == multiset(b)
    ensures a == b
    decreases |a|
  {
    assert |a| == |multiset(a)| == |multiset(b)| == |b|;
    if a != [] {
      StrictlyDescSameHead(a, b, key);
      assert a == [a[0]] + a[1..] && b == [b[0]] + b[1..];
      assert multiset(a[1..]) == multiset(a) - multiset{a[0]};
      assert multiset(b[1..]) == multiset(b) - multiset{b[0]};
      StrictlyDescTail(a, key);
      StrictlyDescTail(b, key);
      StrictlyDescUnique(a[1..], b[1..], key);
    }
  }

  /** An element above every element of a strictly ordered sequence extends it at the front. */
  lemma StrictlyDescCons<T>(x: T, w: seq<T>, key: T -> int)
    requires StrictlyDesc(w, key) && forall k :: 0 <= k < |w| ==> key(x) > key(w[k])
    ensures StrictlyDesc([x] + w, key)
  {
    var r := [x] + w;
    forall i, j | 0 <= i < j < |r| ensures key(r[i]) > key(r[j]) {
      assert r[j] == w[j - 1];
      assert i > 0 ==> r[i] == w[i - 1];
    }
  }
}
