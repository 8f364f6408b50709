/** `get_median_and_max` from the token-log parser: an empty list gives
    `(0, 0)`; otherwise the list is sorted in place, the element at index
    `len // 2` is reported as the "median" and the largest element as the
    maximum. */
module TokenStats {

  predicate Sorted(s: seq<int>) {
    forall i, j :: 0 <= i < j < |s| ==> s[i] <= s[j]
  }

  /** Inserting one element into a sequence adds exactly that element. */
  function Insert(x: int, s: seq<int>): (r: seq<int>)
    ensures multiset(r) == multiset(s) + multiset{x}
    ensures |r| == |s| + 1
  {
    if s == [] || x <= s[0] then [x] + s
    else
      assert s == [s[0]] + s[1..];
      [s[0]] + Insert(x, s[1..])
  }

  /** A lower bound of `x` and of every element of `s` bounds every element
      of the insertion. */
  lemma {:induction false} InsertBounded(x: int, s: seq<int>, b: int)
    requires b <= x
    requires forall k :: 0 <= k < |s| ==> b <= s[k]
    ensures forall k :: 0 <= k < |Insert(x, s)| ==> b <= Insert(x, s)[k]
  {
    if s != [] && x > s[0] {
      InsertBounded(x, s[1..], b);
      var tail := Insert(x, s[1..]);
      assert Insert(x, s) == [s[0]] + tail;
    }
  }

  /** Inserting into a sorted sequence keeps it sorted. */
  lemma {:induction false} InsertSorted(x: int, s: seq<int>)
    requires Sorted(s)
    ensures Sorted(Insert(x, s))
  {
    if s != [] && x > s[0] {
      InsertSorted(x, s[1..]);
      var tail := Insert(x, s[1..]);
      InsertBounded(x, s[1..], s[0]);
      var r := Insert(x, s);
      assert r == [s[0]] + tail;
      forall i, j | 0 <= i < j < |r| ensures r[i] <= r[j] {
        assert r[j] == tail[j - 1];
        if i > 0 {
          assert r[i] == tail[i - 1];
        }
      }
    }
  }

  /** The ascending order `list.sort()` leaves behind: sorted, and a
      permutation of its input. */
  function SortSeq(s: seq<int>): (r: seq<int>)
    ensures Sorted(r)
    ensures multiset(r) == multiset(s)
    ensures |r| == |s|
  {
    if s == [] then []
    else
      assert s == [s[0]] + s[1..];
      InsertSorted(s[0], SortSeq(s[1..]));
      Insert(s[0], SortSeq(s[1..]))
  }

  /** `max(s)` for a non-empty `s`: an element of `s` no smaller than any. */
  function MaxOf(s: seq<int>): (m: int)
    requires |s| > 0
    ensures m in s
    ensures forall x :: x in s ==> x <= m
  {
    if |s| == 1 then s[0]
    else
      var rest := MaxOf(s[1..]);
      assert s == [s[0]] + s[1..];
      if s[0] >= rest then s[0] else rest
  }

  /** The pair `get_median_and_max(s)` returns. For a non-empty list both
      are elements of it, the "median" is the middle element of the sorted
      list, and it never exceeds the maximum. */
  function MedianAndMax(s: seq<int>): (r: (int, int))
    ensures s == [] ==> r == (0, 0)
    ensures s != [] ==> r.0 in s && r.1 in s && r.0 <= r.1
    ensures s != [] ==> forall x :: x in s ==> x <= r.1
    ensures s != [] ==> |s| / 2 < |s| && r.0 == SortSeq(s)[|s| / 2]
  {
    if s == [] then (0, 0)
    else
      var sorted := SortSeq(s);
      assert sorted[|s| / 2] in multiset(sorted);
      (sorted[|s| / 2], MaxOf(s))
  }

  /** `get_median_and_max(tokens_list)`: sorts `a` in place and returns the
      middle element of the sorted list and the largest element; an empty
      list is left alone and gives `(0, 0)`. */
  method GetMedianAndMax(a: array<int>) returns (median: int, maxTokens: int)
    modifies a
    ensures (median, maxTokens) == MedianAndMax(old(a[..]))
    ensures a.Length == 0 ==> a[..] == old(a[..])
    ensures a.Length > 0 ==> a[..] == SortSeq(old(a[..]))
  {
    if a.Length == 0 {
      return 0, 0;
    }
    ghost var original := a[..];
    var sorted := SortSeq(a[..]);
    forall i | 0 <= i < a.Length {
      a[i] := sorted[i];
    }
    assert a[..] == sorted;
    median := a[a.Length / 2];
    maxTokens := Max(a);
    MaxOfPermutation(sorted, original);
  }

  /** `max(a)` on a non-empty list: a left-to-right scan that keeps the
      largest element seen so far. */
  method Max(a: array<int>) returns (m: int)
    requires a.Length > 0
    ensures m == MaxOf(a[..])
  {
    m := a[0];
    var i := 1;
    while i < a.Length
      invariant 1 <= i <= a.Length
      invariant m in a[..i]
      invariant forall k :: 0 <= k < i ==> a[k] <= m
    {
      if a[i] > m {
        m := a[i];
      }
      i := i + 1;
    }
    assert a[..i] == a[..];
    MaxUnique(a[..], m);
  }

  /** Permutations of each other have the same maximum. */
  lemma MaxOfPermutation(s: seq<int>, t: seq<int>)
    requires |s| > 0 && multiset(s) == multiset(t)
    ensures |t| > 0 && MaxOf(s) == MaxOf(t)
  {
    SameMembers(s, t);
    assert s[0] in s;
    MaxUnique(t, MaxOf(s));
  }

  /** Two permutations of each other have the same members. */
  lemma SameMembers(s: seq<int>, t: seq<int>)
    requires multiset(s) == multiset(t)
    ensures forall x :: x in s <==> x in t
  {
    forall x ensures x in s <==> x in t {
      assert x in s <==> x in multiset(s);
      assert x in t <==> x in multiset(t);
    }
  }

  /** A member of `s` no smaller than any member is `max(s)`. */
  lemma MaxUnique(s: seq<int>, m: int)
    requires m in s && forall x :: x in s ==> x <= m
    ensures MaxOf(s) == m
  {
  }
}
