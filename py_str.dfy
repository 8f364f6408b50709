/** Python `str` and `list` semantics that the scripts rely on: `find`, `in`,
    slicing with negative and out-of-range bounds, `strip`, `split`,
    `replace` of one character, `int()` and `str()` of an integer, and `sum`. */
module PyStr {

  datatype Option<+T> = None | Some(value: T) {
    predicate IsFailure() { None? }
    function PropagateFailure<U>(): Option<U> requires None? { None }
    function Extract(): T requires Some? { value }
  }

  datatype Result<+T, +E> = Success(value: T) | Failure(error: E) {
    predicate IsFailure() { Failure? }
    function PropagateFailure<U>(): Result<U, E> requires Failure? { Failure(error) }
    function Extract(): T requires Success? { value }
  }

  // ---------------------------------------------------------------------------
  // Searching

  /** `pat` occurs in `s` starting at index `i`. */
  predicate OccursAt(s: string, pat: string, i: int) {
    0 <= i && i + |pat| <= |s| && s[i..i + |pat|] == pat
  }

  /** `s.find(pat, start)`: the first index at or after `start` where `pat`
      occurs, or -1. Like Python, a start beyond the end finds nothing, not
      even the empty string. */
  function Find(s: string, pat: string, start: nat): (r: int)
    ensures r == -1 || (start <= r && OccursAt(s, pat, r))
    ensures r == -1 ==> forall j :: start <= j ==> !OccursAt(s, pat, j)
    ensures r != -1 ==> forall j :: start <= j < r ==> !OccursAt(s, pat, j)
    ensures pat == [] && start <= |s| ==> r == start
    decreases |s| - start
  {
    if start + |pat| > |s| then -1
    else if s[start..start + |pat|] == pat then start
    else Find(s, pat, start + 1)
  }

  /** Python's substring test `pat in s`. */
  predicate Contains(s: string, pat: string) {
    Find(s, pat, 0) != -1
  }

  lemma ContainsIff(s: string, pat: string)
    ensures Contains(s, pat) <==> exists j :: OccursAt(s, pat, j)
  {
    if Contains(s, pat) {
      assert OccursAt(s, pat, Find(s, pat, 0));
    }
  }

  /** An occurrence inside a prefix is an occurrence in the whole string. */
  lemma OccursInPrefix(s: string, n: nat, pat: string, j: int)
    requires n <= |s| && OccursAt(s[..n], pat, j)
    ensures OccursAt(s, pat, j)
  {
    assert s[..n][j..j + |pat|] == s[j..j + |pat|];
  }

  /** An occurrence inside a suffix is an occurrence in the whole string. */
  lemma OccursInSuffix(s: string, n: nat, pat: string, j: int)
    requires n <= |s| && OccursAt(s[n..], pat, j)
    ensures OccursAt(s, pat, n + j)
  {
    assert s[n..][j..j + |pat|] == s[n + j..n + j + |pat|];
  }

  /** Occurrences in a suffix, seen from the whole string. */
  lemma OccursFromSuffix(s: string, n: nat, pat: string, j: int)
    requires n <= |s| && 0 <= j && OccursAt(s, pat, n + j)
    ensures OccursAt(s[n..], pat, j)
  {
    assert s[n..][j..j + |pat|] == s[n + j..n + j + |pat|];
  }

  /** Finding in a suffix is finding in the whole string, shifted. */
  lemma FindInSuffix(s: string, n: nat, pat: string)
    requires n <= |s|
    ensures Find(s[n..], pat, 0) == -1 ==> Find(s, pat, n) == -1
    ensures Find(s[n..], pat, 0) != -1 ==> Find(s, pat, n) == n + Find(s[n..], pat, 0)
  {
    var k := Find(s[n..], pat, 0);
    var r := Find(s, pat, n);
    if k == -1 {
      if r != -1 {
        OccursFromSuffix(s, n, pat, r - n);
      }
    } else {
      OccursInSuffix(s, n, pat, k);
      if r != -1 && r < n + k {
        OccursFromSuffix(s, n, pat, r - n);
      }
    }
  }

  /** The last index holding `c`, as the last element of
      `[m.start() for m in re.finditer(c, s)]`; None when that list is empty. */
  function LastIndexOf(s: string, c: char): (r: Option<nat>)
    ensures r.None? <==> c !in s
    ensures r.Some? ==> r.value < |s| && s[r.value] == c
    ensures r.Some? ==> forall k :: r.value < k < |s| ==> s[k] != c
  {
    if s == [] then None
    else if s[|s| - 1] == c then Some(|s| - 1)
    else LastIndexOf(s[..|s| - 1], c)
  }

  predicate StartsWith(s: string, prefix: string) {
    prefix <= s
  }

  predicate EndsWith(s: string, suffix: string) {
    |suffix| <= |s| && s[|s| - |suffix|..] == suffix
  }

  // ---------------------------------------------------------------------------
  // Slicing

  /** How Python normalises one slice bound against a length `n`:
      a negative bound counts from the end, and the result is clamped to [0, n]. */
  function SliceBound(i: int, n: nat): (b: nat)
    ensures b <= n
  {
    if i < 0 then (if i + n < 0 then 0 else i + n)
    else if i > n then n
    else i
  }

  /** `s[i:j]` with Python's slice semantics. */
  function Slice(s: string, i: int, j: int): string {
    var a, b := SliceBound(i, |s|), SliceBound(j, |s|);
    if a < b then s[a..b] else []
  }

  /** A slice never holds more than the distance between its bounds. */
  lemma SliceWidth(s: string, i: int, w: nat)
    ensures |Slice(s, i, i + w)| <= w
  {
  }

  lemma SliceInRange(s: string, i: int, j: int)
    requires 0 <= i <= j <= |s|
    ensures Slice(s, i, j) == s[i..j]
  {
  }

  // ---------------------------------------------------------------------------
  // Whitespace and strip

  /** Python's `str.isspace` for one character: the Unicode whitespace set. */
  predicate IsSpace(c: char) {
    ('\t' <= c <= '\r') || ('\U{1C}' <= c <= ' ') || c == '\U{85}' || c == '\U{A0}'
    || c == '\U{1680}' || ('\U{2000}' <= c <= '\U{200A}') || c == '\U{2028}' || c == '\U{2029}'
    || c == '\U{202F}' || c == '\U{205F}' || c == '\U{3000}'
  }

  predicate NoSpace(s: string) {
    forall k :: 0 <= k < |s| ==> !IsSpace(s[k])
  }

  function StripLeft(s: string): string {
    if s != [] && IsSpace(s[0]) then StripLeft(s[1..]) else s
  }

  function StripRight(s: string): string {
    if s != [] && IsSpace(s[|s| - 1]) then StripRight(s[..|s| - 1]) else s
  }

  /** `s.strip()`: `s` without its leading and trailing whitespace. */
  function Strip(s: string): string {
    StripRight(StripLeft(s))
  }

  /** The number of leading whitespace characters `lstrip()` removes. */
  function LeftCut(s: string): (n: nat)
    ensures n <= |s|
  {
    if s != [] && IsSpace(s[0]) then 1 + LeftCut(s[1..]) else 0
  }

  /** Where `rstrip()` cuts: the length of what it keeps. */
  function RightCut(s: string): (n: nat)
    ensures n <= |s|
  {
    if s != [] && IsSpace(s[|s| - 1]) then RightCut(s[..|s| - 1]) else |s|
  }

  lemma {:induction false} StripLeftShape(s: string)
    ensures StripLeft(s) == s[LeftCut(s)..]
    ensures forall k :: 0 <= k < LeftCut(s) ==> IsSpace(s[k])
    ensures StripLeft(s) != [] ==> !IsSpace(StripLeft(s)[0])
    decreases |s|
  {
    if s != [] && IsSpace(s[0]) {
      StripLeftShape(s[1..]);
      var a := LeftCut(s[1..]);
      assert s[1..][a..] == s[a + 1..];
      forall k | 0 <= k < a + 1 ensures IsSpace(s[k]) {
        if k > 0 { assert s[k] == s[1..][k - 1]; }
      }
    } else {
      assert StripLeft(s) == s[0..];
    }
  }

  lemma {:induction false} StripRightShape(s: string)
    ensures StripRight(s) == s[..RightCut(s)]
    ensures forall k :: RightCut(s) <= k < |s| ==> IsSpace(s[k])
    ensures StripRight(s) != [] ==> !IsSpace(StripRight(s)[|StripRight(s)| - 1])
    decreases |s|
  {
    if s != [] && IsSpace(s[|s| - 1]) {
      var t := s[..|s| - 1];
      StripRightShape(t);
      assert t[..RightCut(t)] == s[..RightCut(t)];
    } else {
      assert StripRight(s) == s[..|s|];
    }
  }

  /** `strip()` removes exactly a whitespace prefix and a whitespace suffix, and
      what remains neither starts nor ends with whitespace. */
  lemma StripShape(s: string)
    ensures exists a, b :: (0 <= a <= b <= |s| && Strip(s) == s[a..b]
                            && (forall k :: 0 <= k < a ==> IsSpace(s[k]))
                            && (forall k :: b <= k < |s| ==> IsSpace(s[k])))
    ensures Strip(s) != [] ==> !IsSpace(Strip(s)[0]) && !IsSpace(Strip(s)[|Strip(s)| - 1])
  {
    StripSlice(s);
    if Strip(s) != [] {
      StripFirst(s);
      StripRightShape(StripLeft(s));
    }
  }

  /** `strip()` is one slice of `s` with whitespace on both sides. */
  lemma StripSlice(s: string)
    ensures exists a, b :: (0 <= a <= b <= |s| && Strip(s) == s[a..b]
                            && (forall k :: 0 <= k < a ==> IsSpace(s[k]))
                            && (forall k :: b <= k < |s| ==> IsSpace(s[k])))
  {
    StripLeftShape(s);
    var a := LeftCut(s);
    var t := s[a..];
    StripRightShape(t);
    var b := RightCut(t);
    StripWitness(s, a, b);
    StripCuts(s, a, a + b);
  }

  /** Two cuts with whitespace outside them witness `StripSlice`. */
  lemma StripCuts(s: string, a: nat, b: nat)
    requires a <= b <= |s| && Strip(s) == s[a..b]
    requires forall k :: 0 <= k < a ==> IsSpace(s[k])
    requires forall k :: b <= k < |s| ==> IsSpace(s[k])
    ensures exists a, b :: (0 <= a <= b <= |s| && Strip(s) == s[a..b]
                            && (forall k :: 0 <= k < a ==> IsSpace(s[k]))
                            && (forall k :: b <= k < |s| ==> IsSpace(s[k])))
  {
  }

  /** The two cuts of `strip()` combine into one slice of `s`. */
  lemma StripWitness(s: string, a: nat, b: nat)
    requires a <= |s| && StripLeft(s) == s[a..] && (forall k :: 0 <= k < a ==> IsSpace(s[k]))
    requires b <= |s| - a && StripRight(s[a..]) == s[a..][..b]
    requires forall k :: b <= k < |s| - a ==> IsSpace(s[a..][k])
    ensures Strip(s) == s[a..a + b]
    ensures forall k :: a + b <= k < |s| ==> IsSpace(s[k])
  {
    assert s[a..][..b] == s[a..a + b];
    forall k | a + b <= k < |s| ensures IsSpace(s[k]) {
      assert s[k] == s[a..][k - a];
    }
  }

  /** The first character of `strip()` is the first of `lstrip()`. */
  lemma StripFirst(s: string)
    requires Strip(s) != []
    ensures !IsSpace(Strip(s)[0])
  {
    StripLeftShape(s);
    StripRightShape(StripLeft(s));
    var t := StripLeft(s);
    assert Strip(s)[0] == t[0];
  }

  /** A string without whitespace is its own `strip()`. */
  lemma StripNoSpace(s: string)
    requires NoSpace(s)
    ensures Strip(s) == s
  {
    assert StripLeft(s) == s;
    assert StripRight(s) == s;
  }

  // ---------------------------------------------------------------------------
  // replace and split

  /** `s.replace(a, b)` for one-character `a` and `b`. */
  function ReplaceChar(s: string, a: char, b: char): (r: string)
    ensures |r| == |s|
    ensures forall k :: 0 <= k < |s| ==> r[k] == if s[k] == a then b else s[k]
  {
    if s == [] then [] else [if s[0] == a then b else s[0]] + ReplaceChar(s[1..], a, b)
  }

  /** Replacing distributes over concatenation. */
  lemma ReplaceCharAppend(s: string, t: string, a: char, b: char)
    ensures ReplaceChar(s + t, a, b) == ReplaceChar(s, a, b) + ReplaceChar(t, a, b)
  {
    var l, r := ReplaceChar(s + t, a, b), ReplaceChar(s, a, b) + ReplaceChar(t, a, b);
    assert forall k :: 0 <= k < |l| ==> l[k] == r[k] by {
      forall k | 0 <= k < |l| ensures l[k] == r[k] {
        if k < |s| { assert (s + t)[k] == s[k]; } else { assert (s + t)[k] == t[k - |s|]; }
      }
    }
  }

  /** Replacing a character that does not occur changes nothing. */
  lemma ReplaceCharAbsent(s: string, a: char, b: char)
    requires a !in s
    ensures ReplaceChar(s, a, b) == s
  {
    var r := ReplaceChar(s, a, b);
    assert forall k :: 0 <= k < |s| ==> r[k] == s[k];
  }

  /** `sep.join(parts)`. */
  function Join(parts: seq<string>, sep: string): string
    requires |parts| >= 1
  {
    if |parts| == 1 then parts[0] else parts[0] + sep + Join(parts[1..], sep)
  }

  /** `s.split(sep)` for a non-empty separator (Python rejects an empty one). */
  function Split(s: string, sep: string): (parts: seq<string>)
    requires |sep| > 0
    ensures |parts| >= 1
    ensures |parts| >= 2 <==> Contains(s, sep)
    decreases |s|
  {
    var i := Find(s, sep, 0);
    if i == -1 then [s] else [s[..i]] + Split(s[i + |sep|..], sep)
  }

  /** Splitting and joining back gives the original text, and no piece
      contains the separator. */
  lemma {:induction false} SplitJoin(s: string, sep: string)
    requires |sep| > 0
    ensures Join(Split(s, sep), sep) == s
    ensures forall k :: 0 <= k < |Split(s, sep)| ==> !Contains(Split(s, sep)[k], sep)
    decreases |s|
  {
    var i := Find(s, sep, 0);
    if i != -1 {
      var rest := s[i + |sep|..];
      SplitJoin(rest, sep);
      SplitStep(s, sep, i);
      NoOccurrenceBeforeFirst(s, sep);
      JoinAround(s, sep, i, Split(rest, sep));
      CleanPrepend(s[..i], Split(rest, sep), sep);
    }
  }

  /** Pieces that join back to what follows an occurrence of `sep`, with the
      text before it in front, join back to the whole text. */
  lemma JoinAround(s: string, sep: string, i: nat, tail: seq<string>)
    requires OccursAt(s, sep, i) && |tail| >= 1 && Join(tail, sep) == s[i + |sep|..]
    ensures Join([s[..i]] + tail, sep) == s
  {
    JoinPrepend(s[..i], tail, sep);
    Around(s, sep, i);
  }

  /** A text is what comes before an occurrence, the occurrence, and what
      follows it. */
  lemma Around(s: string, sep: string, i: nat)
    requires OccursAt(s, sep, i)
    ensures s[..i] + sep + s[i + |sep|..] == s
  {
    assert s[..i] + s[i..i + |sep|] + s[i + |sep|..] == s;
  }

  /** Splitting at the first separator: the text before it, then the pieces
      of the rest. */
  lemma SplitStep(s: string, sep: string, i: int)
    requires |sep| > 0 && i == Find(s, sep, 0) && i != -1
    ensures Split(s, sep) == [s[..i]] + Split(s[i + |sep|..], sep)
  {
  }

  /** Joining a piece in front of other pieces. */
  lemma JoinPrepend(a: string, tail: seq<string>, sep: string)
    requires |tail| >= 1
    ensures Join([a] + tail, sep) == a + sep + Join(tail, sep)
  {
    assert ([a] + tail)[1..] == tail;
  }

  /** Putting a piece without the separator in front of pieces without it. */
  lemma CleanPrepend(a: string, tail: seq<string>, sep: string)
    requires !Contains(a, sep)
    requires forall k :: 0 <= k < |tail| ==> !Contains(tail[k], sep)
    ensures forall k :: 0 <= k < |[a] + tail| ==> !Contains(([a] + tail)[k], sep)
  {
    forall k | 0 <= k < |[a] + tail| ensures !Contains(([a] + tail)[k], sep) {
      if k > 0 { assert ([a] + tail)[k] == tail[k - 1]; }
    }
  }

  /** `s.find(c, start)` for a one-character pattern: -1 exactly when `c` does
      not occur from `start` on, and otherwise the first index from `start` on
      that holds `c`. */
  lemma {:induction false} FindChar(s: string, c: char, start: nat)
    ensures Find(s, [c], start) == -1 <==> forall j :: start <= j < |s| ==> s[j] != c
    ensures Find(s, [c], start) != -1 ==>
      s[Find(s, [c], start)] == c && forall j :: start <= j < Find(s, [c], start) ==> s[j] != c
    decreases |s| - start
  {
    if start < |s| {
      assert s[start..start + 1] == [s[start]];
      if s[start] != c {
        FindChar(s, c, start + 1);
      }
    }
  }

  /** `s[start:s.find(c, start)]` never holds `c`, whether or not `c` is found
      (a miss ends the slice one short of the end). */
  lemma SliceBeforeChar(s: string, c: char, start: nat)
    ensures c !in Slice(s, start, Find(s, [c], start))
  {
    FindChar(s, c, start);
    var r := Slice(s, start, Find(s, [c], start));
    forall k | 0 <= k < |r| ensures r[k] != c {
      assert r[k] == s[SliceBound(start, |s|) + k];
    }
  }

  /** Stripping keeps out a character the text does not hold. */
  lemma StripKeepsOut(s: string, c: char)
    requires c !in s
    ensures c !in Strip(s)
  {
    StripSlice(s);
  }

  /** A mismatch at offset `k` rules out an occurrence at `j`. */
  lemma NotOccursAt(s: string, pat: string, j: int, k: nat)
    requires 0 <= j && k < |pat| && j + k < |s| && s[j + k] != pat[k]
    ensures !OccursAt(s, pat, j)
  {
    if j + |pat| <= |s| {
      assert s[j..j + |pat|][k] == s[j + k];
    }
  }

  /** When the text before an occurrence cannot start one, `find` returns
      that occurrence. */
  lemma FindAfterFree(pre: string, pat: string, rest: string)
    requires |pat| > 0 && pat[0] !in pre
    ensures Find(pre + pat + rest, pat, 0) == |pre|
    ensures (pre + pat + rest)[|pre| + |pat|..] == rest
  {
    var s := pre + pat + rest;
    assert s[|pre|..|pre| + |pat|] == pat;
    assert OccursAt(s, pat, |pre|);
    forall j | 0 <= j < |pre| ensures !OccursAt(s, pat, j) {
      assert s[j] == pre[j];
      NotOccursAt(s, pat, j, 0);
    }
  }

  /** A string contains each of its suffixes. */
  lemma ContainsSuffix(a: string, b: string)
    ensures Contains(a + b, b)
  {
    assert (a + b)[|a|..|a| + |b|] == b;
    assert OccursAt(a + b, b, |a|);
    ContainsIff(a + b, b);
  }

  /** Appending text keeps every occurrence. */
  lemma ContainsExtend(s: string, b: string, c: string)
    requires Contains(s, b)
    ensures Contains(s + c, b)
  {
    ContainsIff(s, b);
    var i :| 0 <= i && OccursAt(s, b, i);
    assert (s + c)[i..i + |b|] == s[i..i + |b|];
    assert OccursAt(s + c, b, i);
    ContainsIff(s + c, b);
  }

  /** Text framed by a prefix and a suffix is contained in the whole, and
      the whole ends with the suffix's last part. */
  lemma Framed(head: string, mid: string, tail: string, last: string)
    ensures Contains(head + mid + tail + last, mid)
    ensures EndsWith(head + mid + tail + last, last)
  {
    ContainsSuffix(head, mid);
    ContainsExtend(head + mid, mid, tail + last);
    assert head + mid + (tail + last) == head + mid + tail + last;
    assert (head + mid + tail + last)[|head + mid + tail|..] == last;
  }

  /** The text before the first occurrence contains no occurrence. */
  lemma NoOccurrenceBeforeFirst(s: string, sep: string)
    requires |sep| > 0 && Contains(s, sep)
    ensures !Contains(s[..Find(s, sep, 0)], sep)
  {
    var i := Find(s, sep, 0);
    var j := Find(s[..i], sep, 0);
    if j != -1 {
      OccursInPrefix(s, i, sep, j);
    }
  }

  /** An occurrence inside a slice is an occurrence in the whole string. */
  lemma ContainsFromSlice(s: string, pat: string, a: nat, b: nat)
    requires a <= b <= |s|
    ensures Contains(s[a..b], pat) ==> Contains(s, pat)
  {
    if Contains(s[a..b], pat) {
      var j := Find(s[a..b], pat, 0);
      assert s[a..][..b - a] == s[a..b];
      OccursInPrefix(s[a..], b - a, pat, j);
      OccursInSuffix(s, a, pat, j);
      ContainsIff(s, pat);
    }
  }

  /** Stripping adds no occurrence. */
  lemma ContainsFromStrip(s: string, pat: string)
    ensures Contains(Strip(s), pat) ==> Contains(s, pat)
  {
    StripSlice(s);
    var a, b :| 0 <= a <= b <= |s| && Strip(s) == s[a..b];
    ContainsFromSlice(s, pat, a, b);
  }

  /** The first piece of a split holds no separator. */
  lemma FirstPieceClean(s: string, sep: string)
    requires |sep| > 0
    ensures !Contains(Split(s, sep)[0], sep)
  {
    SplitFirst(s, sep);
    if Contains(s, sep) {
      NoOccurrenceBeforeFirst(s, sep);
    }
  }

  /** `s.split(sep)[0]`: the text before the first separator (all of `s` if none). */
  lemma SplitFirst(s: string, sep: string)
    requires |sep| > 0
    ensures Split(s, sep)[0] == if Contains(s, sep) then s[..Find(s, sep, 0)] else s
  {
  }

  /** `s.split(sep)[1]`: the text between the first and the second separator,
      or up to the end when there is no second one. */
  lemma SplitSecond(s: string, sep: string)
    requires |sep| > 0 && Contains(s, sep)
    ensures var rest := s[Find(s, sep, 0) + |sep|..];
      Split(s, sep)[1] == if Contains(rest, sep) then rest[..Find(rest, sep, 0)] else rest
  {
  }

  /** The last piece of `s.split(sep)`. */
  function LastPart(s: string, sep: string): string
    requires |sep| > 0
  {
    Last(Split(s, sep))
  }

  /** `p[-1]`: the last element of a non-empty sequence. */
  function Last<T>(p: seq<T>): T
    requires |p| > 0
  {
    p[|p| - 1]
  }

  /** `t` is what follows the last `sep` in `s`: a suffix of `s` without `sep`,
      preceded by `sep` whenever `s` contains one, and all of `s` otherwise. */
  predicate AfterLast(s: string, sep: string, t: string) {
    && EndsWith(s, t) && !Contains(t, sep)
    && if Contains(s, sep) then EndsWith(s, sep + t) else t == s
  }

  /** `s.split(sep)[-1]` is the text after the last separator. */
  lemma {:induction false} SplitLast(s: string, sep: string)
    requires |sep| > 0
    ensures AfterLast(s, sep, LastPart(s, sep))
    decreases |s|
  {
    var i := Find(s, sep, 0);
    if i == -1 {
      SplitLastNone(s, sep);
    } else {
      var rest := s[i + |sep|..];
      SplitLast(rest, sep);
      SplitLastStep(s, sep, i);
    }
  }

  /** One separator further: the last piece of the rest is the last piece. */
  lemma SplitLastStep(s: string, sep: string, i: nat)
    requires |sep| > 0 && i == Find(s, sep, 0)
    requires AfterLast(s[i + |sep|..], sep, LastPart(s[i + |sep|..], sep))
    ensures AfterLast(s, sep, LastPart(s, sep))
  {
    var t := LastPart(s[i + |sep|..], sep);
    AfterLastStep(s, sep, i, t);
    LastPartStep(s, sep, i);
    AfterLastSame(s, sep, t, LastPart(s, sep));
  }

  /** `AfterLast` holds of any text equal to one it holds of. */
  lemma AfterLastSame(s: string, sep: string, t: string, u: string)
    requires AfterLast(s, sep, t) && t == u
    ensures AfterLast(s, sep, u)
  {
  }

  /** Without a separator the last piece is the whole text. */
  lemma SplitLastNone(s: string, sep: string)
    requires |sep| > 0 && Find(s, sep, 0) == -1
    ensures AfterLast(s, sep, LastPart(s, sep))
  {
    assert Split(s, sep) == [s];
    assert s[|s| - |s|..] == s;
  }

  /** After the first separator, the last piece is the last piece of the rest. */
  lemma LastPartStep(s: string, sep: string, i: nat)
    requires |sep| > 0 && i == Find(s, sep, 0)
    ensures LastPart(s, sep) == LastPart(s[i + |sep|..], sep)
  {
    var rest := s[i + |sep|..];
    SplitStep(s, sep, i);
    LastOfPrepend(s[..i], Split(rest, sep));
  }

  /** Putting an element in front leaves the last element unchanged. */
  lemma LastOfPrepend<T>(a: T, tail: seq<T>)
    requires |tail| >= 1
    ensures Last([a] + tail) == Last(tail)
  {
  }

  /** For a separator whose first character does not recur in it (so two
      occurrences never overlap), `s.split(sep)[-1]` of `pre + sep + tail`
      is `tail` whenever `tail` holds no separator, whatever `pre` holds. */
  lemma {:induction false} LastPartAfter(pre: string, sep: string, tail: string)
    requires |sep| > 0 && sep[0] !in sep[1..] && !Contains(tail, sep)
    ensures LastPart(pre + sep + tail, sep) == tail
    decreases |pre|
  {
    var s := pre + sep + tail;
    assert s[|pre|..|pre| + |sep|] == sep;
    assert OccursAt(s, sep, |pre|);
    var i := Find(s, sep, 0);
    LastPartStep(s, sep, i);
    if i == |pre| {
      assert s[i + |sep|..] == tail;
      SplitLastNone(tail, sep);
    } else {
      NoOverlap(s, sep, i, |pre|);
      var pre' := pre[i + |sep|..];
      assert s[i + |sep|..] == pre' + sep + tail;
      LastPartAfter(pre', sep, tail);
    }
  }

  /** Occurrences of a separator whose first character does not recur in
      it never overlap. */
  lemma NoOverlap(s: string, sep: string, i: int, j: int)
    requires |sep| > 0 && sep[0] !in sep[1..]
    ensures OccursAt(s, sep, i) && OccursAt(s, sep, j) && i < j ==> i + |sep| <= j
  {
    ShiftedMatch(s, sep, i, j);
  }

  /** Two overlapping occurrences `d` apart make `sep[d]` equal to `sep[0]`. */
  lemma ShiftedMatch(s: string, sep: string, i: int, j: int)
    ensures OccursAt(s, sep, i) && OccursAt(s, sep, j) && i < j < i + |sep| ==>
      sep[1..][j - i - 1] == sep[0]
  {
    if OccursAt(s, sep, i) && OccursAt(s, sep, j) && i < j < i + |sep| {
      var d := j - i;
      assert s[j] == s[i..i + |sep|][d];
      assert s[j] == s[j..j + |sep|][0];
    }
  }

  /** Being a prefix is transitive. */
  lemma PrefixTrans<T>(a: seq<T>, b: seq<T>, c: seq<T>)
    requires a <= b && b <= c
    ensures a <= c
  {
    assert c[..|a|] == c[..|b|][..|a|];
  }

  /** What follows the last separator of the rest follows the last
      separator of the whole. */
  lemma AfterLastStep(s: string, sep: string, i: nat, t: string)
    requires OccursAt(s, sep, i) && AfterLast(s[i + |sep|..], sep, t)
    ensures AfterLast(s, sep, t)
  {
    var n := i + |sep|;
    var rest := s[n..];
    EndsWithSuffix(s, n, t);
    ContainsIff(s, sep);
    if Contains(rest, sep) {
      EndsWithSuffix(s, n, sep + t);
    } else {
      EndsWithRest(s, sep, i);
    }
  }

  /** A suffix of a suffix of `s` is a suffix of `s`. */
  lemma EndsWithSuffix(s: string, n: nat, u: string)
    requires n <= |s| && EndsWith(s[n..], u)
    ensures EndsWith(s, u)
  {
    assert s[n..][|s| - n - |u|..] == s[|s| - |u|..];
  }

  /** `s` ends with the separator at `i` followed by everything after it. */
  lemma EndsWithRest(s: string, sep: string, i: nat)
    requires OccursAt(s, sep, i)
    ensures EndsWith(s, sep + s[i + |sep|..])
  {
    assert s[i..] == sep + s[i + |sep|..];
  }

  // ---------------------------------------------------------------------------
  // Integers: int() and str()

  predicate IsDigit(c: char) { '0' <= c <= '9' }

  predicate AllDigits(s: string) {
    |s| > 0 && forall k :: 0 <= k < |s| ==> IsDigit(s[k])
  }

  /** The value of a run of decimal digits, read from its last digit. */
  function DigitsValue(s: string): nat
    requires AllDigits(s)
  {
    var d := (s[|s| - 1] as int) - ('0' as int);
    if |s| == 1 then d else 10 * DigitsValue(s[..|s| - 1]) + d
  }

  /** Python's `int(s)` on a string: surrounding whitespace, an optional sign,
      then decimal digits. None stands for the ValueError it raises. */
  function ParseInt(s: string): Option<int> {
    var t := Strip(s);
    if t != [] && (t[0] == '+' || t[0] == '-') then
      if AllDigits(t[1..]) then
        var v: int := DigitsValue(t[1..]);
        Some(if t[0] == '-' then -v else v)
      else None
    else if AllDigits(t) then Some(DigitsValue(t))
    else None
  }

  /** Text made only of whitespace. */
  predicate Blank(s: string) {
    forall k :: 0 <= k < |s| ==> IsSpace(s[k])
  }

  lemma {:induction false} StripLeftBlank(lead: string, x: string)
    requires Blank(lead) && x != [] && !IsSpace(x[0])
    ensures StripLeft(lead + x) == x
    decreases |lead|
  {
    if lead == [] {
      assert lead + x == x;
    } else {
      assert (lead + x)[0] == lead[0];
      assert (lead + x)[1..] == lead[1..] + x;
      StripLeftBlank(lead[1..], x);
    }
  }

  lemma {:induction false} StripRightBlank(x: string, trail: string)
    requires Blank(trail) && x != [] && !IsSpace(x[|x| - 1])
    ensures StripRight(x + trail) == x
    decreases |trail|
  {
    if trail == [] {
      assert x + trail == x;
    } else {
      var shorter := trail[..|trail| - 1];
      assert (x + trail)[|x + trail| - 1] == trail[|trail| - 1];
      assert (x + trail)[..|x + trail| - 1] == x + shorter;
      StripRightBlank(x, shorter);
    }
  }

  /** Whitespace around a word that neither starts nor ends with whitespace
      is exactly what `strip()` removes. */
  lemma StripBlanks(lead: string, w: string, trail: string)
    requires Blank(lead) && Blank(trail) && w != [] && !IsSpace(w[0]) && !IsSpace(w[|w| - 1])
    ensures Strip(lead + w + trail) == w
  {
    assert lead + w + trail == lead + (w + trail);
    assert (w + trail)[0] == w[0];
    StripLeftBlank(lead, w + trail);
    StripRightBlank(w, trail);
  }

  /** `int()` accepts a run of decimal digits with an optional sign and
      whitespace around it, and gives its value. */
  lemma ParseIntDigits(lead: string, sign: string, d: string, trail: string)
    requires Blank(lead) && Blank(trail) && AllDigits(d)
    requires sign == "" || sign == "+" || sign == "-"
    ensures ParseInt(lead + sign + d + trail)
      == Some(if sign == "-" then -(DigitsValue(d) as int) else DigitsValue(d))
  {
    var w := sign + d;
    assert IsDigit(d[0]) && IsDigit(d[|d| - 1]);
    assert w[|w| - 1] == d[|d| - 1];
    assert lead + sign + d + trail == lead + w + trail;
    StripBlanks(lead, w, trail);
    ParseSigned(lead + w + trail, sign, d);
  }

  /** `int()` of text that strips to a sign and digits. */
  lemma ParseSigned(s: string, sign: string, d: string)
    requires AllDigits(d) && Strip(s) == sign + d
    requires sign == "" || sign == "+" || sign == "-"
    ensures ParseInt(s) == Some(if sign == "-" then -(DigitsValue(d) as int) else DigitsValue(d))
  {
    var w := sign + d;
    if sign != "" {
      assert w[0] == sign[0] && w[1..] == d;
    } else {
      assert w == d && IsDigit(w[0]);
    }
  }

  /** `int()` raises on blank text, on a lone sign, on a first character that
      is neither a digit nor a sign, and on a non-digit anywhere after it. */
  lemma ParseIntRejects(s: string)
    ensures Strip(s) == [] ==> ParseInt(s).None?
    ensures Strip(s) == "+" || Strip(s) == "-" ==> ParseInt(s).None?
    ensures Strip(s) != [] && !IsDigit(Strip(s)[0]) && Strip(s)[0] != '+' && Strip(s)[0] != '-' ==>
      ParseInt(s).None?
    ensures (exists k :: 0 < k < |Strip(s)| && !IsDigit(Strip(s)[k])) ==> ParseInt(s).None?
  {
    var t := Strip(s);
    if exists k :: 0 < k < |t| && !IsDigit(t[k]) {
      var k :| 0 < k < |t| && !IsDigit(t[k]);
      assert t[1..][k - 1] == t[k];
    }
  }

  function DigitChar(d: nat): char
    requires d < 10
  {
    ('0' as int + d) as char
  }

  /** `str(n)` for a natural number. */
  function NatToString(n: nat): (r: string)
    ensures AllDigits(r)
  {
    if n < 10 then [DigitChar(n)] else NatToString(n / 10) + [DigitChar(n % 10)]
  }

  /** `int(str(n)) == n`. */
  lemma {:induction false} ParseNatToString(n: nat)
    ensures ParseInt(NatToString(n)) == Some(n)
  {
    DigitsOfNat(n);
    StripNoSpace(NatToString(n));
  }

  lemma {:induction false} DigitsOfNat(n: nat)
    ensures DigitsValue(NatToString(n)) == n
  {
    if n >= 10 {
      DigitsOfNat(n / 10);
      assert NatToString(n)[..|NatToString(n)| - 1] == NatToString(n / 10);
    }
  }

  // ---------------------------------------------------------------------------
  // Lists of integers

  function Sum(s: seq<int>): int {
    if s == [] then 0 else Sum(s[..|s| - 1]) + s[|s| - 1]
  }

  lemma {:induction false} SumAppend(a: seq<int>, b: seq<int>)
    ensures Sum(a + b) == Sum(a) + Sum(b)
    decreases |b|
  {
    if b != [] {
      assert (a + b)[..|a + b| - 1] == a + b[..|b| - 1];
      SumAppend(a, b[..|b| - 1]);
    } else {
      assert a + b == a;
    }
  }

  lemma SumCons(x: int, s: seq<int>)
    ensures Sum([x] + s) == x + Sum(s)
  {
    SumAppend([x], s);
    assert [x][..0] == [];
  }

  /** `sum` does not depend on the order of the list. */
  lemma {:induction false} SumPermutation(a: seq<int>, b: seq<int>)
    requires multiset(a) == multiset(b)
    ensures Sum(a) == Sum(b)
    decreases |a|
  {
    if a == [] {
      assert |b| == |multiset(b)| == 0;
    } else {
      var x := a[0];
      assert x in multiset(b);
      var j :| 0 <= j < |b| && b[j] == x;
      var b' := b[..j] + b[j + 1..];
      MultisetRemove(b, j);
      assert a == [x] + a[1..];
      assert multiset(a[1..]) == multiset(a) - multiset{x};
      SumPermutation(a[1..], b');
      SumRemove(b, j);
      SumCons(x, a[1..]);
    }
  }

  /** Removing the element at `j` removes one copy of it. */
  lemma MultisetRemove(b: seq<int>, j: nat)
    requires j < |b|
    ensures multiset(b[..j] + b[j + 1..]) == multiset(b) - multiset{b[j]}
  {
    assert b == b[..j] + [b[j]] + b[j + 1..];
  }

  /** The sum with the element at `j` taken out. */
  lemma SumRemove(b: seq<int>, j: nat)
    requires j < |b|
    ensures Sum(b) == b[j] + Sum(b[..j] + b[j + 1..])
  {
    var x := b[j];
    assert b == b[..j] + [x] + b[j + 1..];
    SumAppend(b[..j] + [x], b[j + 1..]);
    SumAppend(b[..j], [x]);
    SumAppend(b[..j], b[j + 1..]);
    assert Sum([x]) == x by {
      assert [x][..0] == [];
    }
  }
}
