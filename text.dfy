/** An optional value: `None` stands for JavaScript's `null`/`undefined`
    and Python's `None`. */
module Options {
  datatype Option<+T> = None | Some(value: T)
}

/** The string primitives the model relies on: JavaScript's `trim`,
    `includes` and `substring(0, n)`, the first-occurrence search behind the
    reasoning-section pattern of the chat client, and the prefix test of the
    frontend server. Strings are sequences of Unicode scalar values. */
module Text {
  import opened Options

  /** The characters `String.prototype.trim` removes: ECMAScript WhiteSpace
      and LineTerminator. */
  predicate IsJsSpace(c: char) {
    c == '\t' || c == '\n' || c == '\U{000B}' || c == '\U{000C}' || c == '\r' || c == ' '
    || c == '\U{00A0}' || c == '\U{1680}' || ('\U{2000}' <= c <= '\U{200A}')
    || c == '\U{2028}' || c == '\U{2029}' || c == '\U{202F}' || c == '\U{205F}'
    || c == '\U{3000}' || c == '\U{FEFF}'
  }

  /** Every character of `s` is white space (vacuously true of ""). */
  predicate AllSpace(s: string) {
    forall k :: 0 <= k < |s| ==> IsJsSpace(s[k])
  }

  /** Leading white space removed. */
  function TrimStart(s: string): string {
    if s != [] && IsJsSpace(s[0]) then TrimStart(s[1..]) else s
  }

  /** `TrimStart` drops a prefix of white space and keeps the rest, which
      does not start with white space. */
  lemma {:induction false} TrimStartShape(s: string)
    ensures var r := TrimStart(s);
      && |r| <= |s| && r == s[|s| - |r|..]
      && AllSpace(s[..|s| - |r|])
      && (r != [] ==> !IsJsSpace(r[0]))
  {
    if s != [] && IsJsSpace(s[0]) {
      TrimStartShape(s[1..]);
      SplitHead(s, |TrimStart(s[1..])|);
    }
  }

  /** Slices of `s` seen through its tail `s[1..]`. */
  lemma SplitHead(s: string, n: nat)
    requires s != [] && n < |s|
    ensures s[1..][|s| - 1 - n..] == s[|s| - n..]
    ensures s[..|s| - n] == [s[0]] + s[1..][..|s| - 1 - n]
  {
  }

  /** Trailing white space removed. */
  function TrimEnd(s: string): string {
    if s != [] && IsJsSpace(s[|s| - 1]) then TrimEnd(s[..|s| - 1]) else s
  }

  /** `TrimEnd` drops a suffix of white space and keeps the rest, which does
      not end with white space. */
  lemma {:induction false} TrimEndShape(s: string)
    ensures var r := TrimEnd(s);
      && |r| <= |s| && r == s[..|r|]
      && AllSpace(s[|r|..])
      && (r != [] ==> !IsJsSpace(r[|r| - 1]))
  {
    if s != [] && IsJsSpace(s[|s| - 1]) {
      TrimEndShape(s[..|s| - 1]);
      SplitLast(s, |TrimEnd(s[..|s| - 1])|);
    }
  }

  /** Slices of `s` seen through its initial part `s[..|s| - 1]`. */
  lemma SplitLast(s: string, n: nat)
    requires s != [] && n < |s|
    ensures s[..|s| - 1][..n] == s[..n]
    ensures s[n..] == s[..|s| - 1][n..] + [s[|s| - 1]]
  {
  }

  /** `s.trim()`: white space removed from both ends. The result is a slice
      of `s` with only white space on either side of it; it is empty exactly
      when `s` is all white space, and otherwise starts and ends with a
      non-space. When `s` does not start with white space only a tail of
      white space is removed. */
  function Trim(s: string): (r: string)
    ensures |r| <= |s|
    ensures exists i :: TrimmedAt(s, r, i)
    ensures r == [] <==> AllSpace(s)
    ensures r != [] ==> !IsJsSpace(r[0]) && !IsJsSpace(r[|r| - 1])
    ensures (s == [] || !IsJsSpace(s[0])) ==> r == s[..|r|] && AllSpace(s[|r|..])
  {
    var front := TrimStart(s);
    TrimStartShape(s);
    TrimEndShape(front);
    TrimmedBetweenSpace(s, front, TrimEnd(front));
    TrimEnd(front)
  }

  /** What remains once a run of white space is cut from the front of `s`
      (leaving `front`) and another from the back of `front` (leaving `r`). */
  lemma TrimmedBetweenSpace(s: string, front: string, r: string)
    requires |front| <= |s| && front == s[|s| - |front|..] && AllSpace(s[..|s| - |front|])
    requires front != [] ==> !IsJsSpace(front[0])
    requires |r| <= |front| && r == front[..|r|] && AllSpace(front[|r|..])
    requires r != [] ==> !IsJsSpace(r[|r| - 1])
    ensures exists i :: TrimmedAt(s, r, i)
    ensures r == [] <==> AllSpace(s)
    ensures r != [] ==> !IsJsSpace(r[0]) && !IsJsSpace(r[|r| - 1])
    ensures (s == [] || !IsJsSpace(s[0])) ==> r == s[..|r|] && AllSpace(s[|r|..])
  {
    EmptyTrimIsAllSpace(s, front, r);
    TrimIsSlice(s, front, r);
    if r != [] {
      var i := |s| - |front|;
      assert r[0] == front[0] == s[i];
      assert !AllSpace(s);
    }
  }

  /** `r` is the slice of `s` that starts at `i`, with only white space
      before it and after it. */
  predicate TrimmedAt(s: string, r: string, i: nat)
  {
    i + |r| <= |s| && r == s[i..i + |r|] && AllSpace(s[..i]) && AllSpace(s[i + |r|..])
  }

  /** The trimmed text is a slice of `s` between two runs of white space;
      when `s` starts with a non-space the first run is empty. */
  lemma TrimIsSlice(s: string, front: string, r: string)
    requires |front| <= |s| && front == s[|s| - |front|..] && AllSpace(s[..|s| - |front|])
    requires front != [] ==> !IsJsSpace(front[0])
    requires |r| <= |front| && r == front[..|r|] && AllSpace(front[|r|..])
    ensures exists i :: TrimmedAt(s, r, i)
    ensures (s == [] || !IsJsSpace(s[0])) ==> r == s[..|r|] && AllSpace(s[|r|..])
  {
    var i := |s| - |front|;
    SliceOfSuffix(s, front, r);
    assert TrimmedAt(s, r, i);
    if i > 0 {
      assert s[..i][0] == s[0] && IsJsSpace(s[0]);
    }
  }

  /** A prefix of a suffix of `s`, read as a slice of `s`. */
  lemma SliceOfSuffix(s: string, front: string, r: string)
    requires |front| <= |s| && front == s[|s| - |front|..]
    requires |r| <= |front| && r == front[..|r|]
    ensures var i := |s| - |front|;
      r == s[i..i + |r|] && s[i + |r|..] == front[|r|..]
  {
  }

  /** If nothing survives trimming, everything was white space. */
  lemma EmptyTrimIsAllSpace(s: string, front: string, r: string)
    requires |front| <= |s| && front == s[|s| - |front|..] && AllSpace(s[..|s| - |front|])
    requires |r| <= |front| && r == front[..|r|] && AllSpace(front[|r|..])
    ensures r == [] ==> AllSpace(s)
  {
    if r == [] {
      forall k | 0 <= k < |s| ensures IsJsSpace(s[k]) {
        if k >= |s| - |front| {
          assert s[k] == front[|r|..][k - (|s| - |front|)];
        } else {
          assert s[k] == s[..|s| - |front|][k];
        }
      }
    }
  }

  /** `s.substring(0, n)` for a non-negative `n`. */
  function Take(s: string, n: nat): (r: string)
    ensures |r| == if n < |s| then n else |s|
    ensures r == s[..|r|]
  {
    if n < |s| then s[..n] else s
  }

  /** `pat` occurs in `s` starting at index `k`. */
  predicate OccursAt(s: string, pat: string, k: nat) {
    k + |pat| <= |s| && s[k..k + |pat|] == pat
  }

  /** `s.indexOf(pat, from)`: the first index at or after `from` where `pat`
      occurs, or `None` where JavaScript answers -1. */
  function IndexOfFrom(s: string, pat: string, from: nat): (r: Option<nat>)
    ensures r.Some? ==> from <= r.value && OccursAt(s, pat, r.value)
    ensures r.Some? ==> forall k :: from <= k < r.value ==> !OccursAt(s, pat, k)
    ensures r.None? ==> forall k :: from <= k ==> !OccursAt(s, pat, k)
    decreases |s| - from
  {
    if |s| < from + |pat| then None
    else if s[from..from + |pat|] == pat then Some(from)
    else IndexOfFrom(s, pat, from + 1)
  }

  /** `s.includes(pat)`. */
  predicate Contains(s: string, pat: string) {
    IndexOfFrom(s, pat, 0).Some?
  }

  /** `Contains` holds exactly when `pat` occurs somewhere in `s`. */
  lemma ContainsIff(s: string, pat: string)
    ensures Contains(s, pat) <==> exists k: nat :: OccursAt(s, pat, k)
  {
    if exists k: nat :: OccursAt(s, pat, k) {
      var k: nat :| OccursAt(s, pat, k);
      assert IndexOfFrom(s, pat, 0).Some?;
    }
  }

  /** `s.startsWith(p)`. */
  predicate StartsWith(s: string, p: string) {
    |p| <= |s| && s[..|p|] == p
  }
}
