/** The ORDER BY of the handlers' queries, as a stable insertion sort by a
    total preorder `le` ("a may come before b"). */
module Sorting {

  /** `le` is total and transitive: the orderings SQL sorts by. */
  ghost predicate TotalPreorder<T(!new)>(le: (T, T) -> bool)
  {
    && (forall a, b :: le(a, b) || le(b, a))
    && (forall a, b, c :: le(a, b) && le(b, c) ==> le(a, c))
  }

  predicate SortedBy<T>(s: seq<T>, le: (T, T) -> bool)
  {
    forall i, j :: 0 <= i < j < |s| ==> le(s[i], s[j])
  }

  /** Puts `x` before the first element it may precede. */
  function Insert<T>(x: T, s: seq<T>, le: (T, T) -> bool): (r: seq<T>)
    ensures |r| == |s| + 1
    ensures multiset(r) == multiset(s) + multiset{x}
    decreases |s|
  {
    if |s| == 0 then [x]
    else if le(x, s[0]) then [x] + s
    else
      assert s == [s[0]] + s[1..];
      [s[0]] + Insert(x, s[1..], le)
  }

  /** `s` rearranged by `le`. */
  function SortBy<T>(s: seq<T>, le: (T, T) -> bool): (r: seq<T>)
    ensures |r| == |s|
    ensures multiset(r) == multiset(s)
    decreases |s|
  {
    if |s| == 0 then []
    else
      assert s == [s[0]] + s[1..];
      Insert(s[0], SortBy(s[1..], le), le)
  }

  lemma {:induction false} InsertSorted<T(!new)>(x: T, s: seq<T>, le: (T, T) -> bool)
    requires TotalPreorder(le) && SortedBy(s, le)
    ensures SortedBy(Insert(x, s, le), le)
    decreases |s|
  {
    if |s| > 0 && !le(x, s[0]) {
      var tail := Insert(x, s[1..], le);
      InsertSorted(x, s[1..], le);
      assert le(s[0], x);
      forall y | y in tail ensures le(s[0], y) {
        assert y in multiset(tail);
        if y != x {
          assert y in multiset(s[1..]);
          var k :| 0 <= k < |s[1..]| && s[1..][k] == y;
          assert s[k + 1] == y;
        }
      }
      var r := [s[0]] + tail;
      forall i, j | 0 <= i < j < |r| ensures le(r[i], r[j]) {
        if i == 0 {
          assert r[j] == tail[j - 1] && r[j] in tail;
        } else {
          assert r[i] == tail[i - 1] && r[j] == tail[j - 1];
        }
      }
    } else if |s| > 0 {
      var r := [x] + s;
      forall i, j | 0 <= i < j < |r| ensures le(r[i], r[j]) {
        if i == 0 && j > 1 {
          assert le(x, s[0]) && le(s[0], s[j - 1]);
        }
      }
    }
  }

  /** The sort's result is in order. */
  lemma {:induction false} SortBySorted<T(!new)>(s: seq<T>, le: (T, T) -> bool)
    requires TotalPreorder(le)
    ensures SortedBy(SortBy(s, le), le)
    decreases |s|
  {
    if |s| > 0 {
      SortBySorted(s[1..], le);
      InsertSorted(s[0], SortBy(s[1..], le), le);
    }
  }

  /** Every element of the sorted sequence comes from the input. */
  lemma SortByElements<T>(s: seq<T>, le: (T, T) -> bool, i: nat)
    requires i < |SortBy(s, le)|
    ensures SortBy(s, le)[i] in s
  {
    var r := SortBy(s, le);
    assert r[i] in multiset(r);
  }

  /** The first `n` elements of `s` (SQL's LIMIT n). */
  function Take<T>(s: seq<T>, n: nat): (r: seq<T>)
    ensures |r| == if n < |s| then n else |s|
    ensures forall i :: 0 <= i < |r| ==> r[i] == s[i]
  {
    if n < |s| then s[..n] else s
  }

  /** SQL's OFFSET off LIMIT n: at most `n` elements starting at `off`. */
  function Window<T>(s: seq<T>, off: nat, n: nat): (r: seq<T>)
    ensures |r| == if off >= |s| then 0 else if off + n <= |s| then n else |s| - off
    ensures forall i :: 0 <= i < |r| ==> r[i] == s[off + i]
  {
    if off >= |s| then [] else Take(s[off..], n)
  }

  /** Consecutive windows of the same size tile the sequence: two adjacent
      pages together are the double-size page. */
  lemma AdjacentWindows<T>(s: seq<T>, off: nat, n: nat)
    ensures Window(s, off, n) + Window(s, off + n, n) == Window(s, off, 2 * n)
  {
    var a, b, c := Window(s, off, n), Window(s, off + n, n), Window(s, off, 2 * n);
    assert |a + b| == |c|;
    forall i | 0 <= i < |c| ensures (a + b)[i] == c[i] {
      if i >= |a| { assert (a + b)[i] == b[i - |a|]; }
    }
  }
}
