/** The JavaScript string built-ins the core relies on: `trim`, `startsWith`,
    `endsWith`, `includes`, `toLowerCase` and `split(/\s+/)`. */
module Text {

  /** The characters matched by `\s` (and removed by `trim`). */
  predicate IsWhitespace(c: char) {
    c == ' ' || c == '\t' || c == '\n' || c == '\r' || c == '\U{000B}' || c == '\U{000C}'
    || c == '\U{00A0}' || c == '\U{1680}' || ('\U{2000}' <= c <= '\U{200A}')
    || c == '\U{2028}' || c == '\U{2029}' || c == '\U{202F}' || c == '\U{205F}'
    || c == '\U{3000}' || c == '\U{FEFF}'
  }

  predicate NoWhitespace(s: string) {
    forall i :: 0 <= i < |s| ==> !IsWhitespace(s[i])
  }

  predicate AllWhitespace(s: string) {
    forall i :: 0 <= i < |s| ==> IsWhitespace(s[i])
  }

  /** Drops the leading run of whitespace (the regex `^\s*` replaced by ""). */
  function TrimStart(s: string): (r: string)
    ensures |r| <= |s| && r == s[|s| - |r|..]
    ensures AllWhitespace(s[..|s| - |r|])
    ensures r == [] || !IsWhitespace(r[0])
  {
    if s != [] && IsWhitespace(s[0]) then TrimStart(s[1..]) else s
  }

  /** Drops the trailing run of whitespace (`/\s*$/` replaced by ""). */
  function TrimEnd(s: string): (r: string)
    ensures |r| <= |s| && r == s[..|r|]
    ensures AllWhitespace(s[|r|..])
    ensures r == [] || !IsWhitespace(r[|r| - 1])
  {
    if s != [] && IsWhitespace(s[|s| - 1]) then TrimEnd(s[..|s| - 1]) else s
  }

  /** `String.prototype.trim`. */
  function Trim(s: string): string {
    TrimEnd(TrimStart(s))
  }

  predicate StartsWith(s: string, p: string) {
    |p| <= |s| && s[..|p|] == p
  }

  predicate EndsWith(s: string, p: string) {
    |p| <= |s| && s[|s| - |p|..] == p
  }

  /** `s.includes(p)`: `p` occurs somewhere in `s`. */
  predicate Contains(s: string, p: string)
    decreases |s|
  {
    StartsWith(s, p) || (s != [] && Contains(s[1..], p))
  }

  /** ASCII upper-case letters mapped to lower case, every other character kept. */
  function LowerChar(c: char): char {
    if 'A' <= c <= 'Z' then (c as int + 32) as char else c
  }

  function ToLower(s: string): (r: string)
    ensures |r| == |s|
  {
    seq(|s|, i requires 0 <= i < |s| => LowerChar(s[i]))
  }

  /** The longest prefix of `s` without whitespace. */
  function Word(s: string): (w: string)
    ensures |w| <= |s| && w == s[..|w|] && NoWhitespace(w)
    ensures |w| < |s| ==> IsWhitespace(s[|w|])
  {
    if s == [] || IsWhitespace(s[0]) then [] else [s[0]] + Word(s[1..])
  }

  /** `s.split(/\s+/)`: the pieces between maximal whitespace runs. A leading
      or trailing run yields an empty piece, and "" yields [""]. */
  function Split(s: string): (pieces: seq<string>)
    ensures |pieces| >= 1
    decreases |s|
  {
    var w := Word(s);
    if |w| == |s| then [s] else [w] + Split(TrimStart(s[|w|..]))
  }

  /** Number of places where a whitespace run starts, scanning left to right;
      `afterSpace` says whether the character before `s` was whitespace. */
  function RunStarts(s: string, afterSpace: bool): nat
    decreases |s|
  {
    if s == [] then 0
    else (if IsWhitespace(s[0]) && !afterSpace then 1 else 0) + RunStarts(s[1..], IsWhitespace(s[0]))
  }

  /** Number of maximal whitespace runs in `s`. */
  function WhitespaceRuns(s: string): nat {
    RunStarts(s, false)
  }

  // ---- lemmas ----------------------------------------------------------------

  lemma {:induction false} RunStartsSkipWord(w: string, rest: string, afterSpace: bool)
    requires NoWhitespace(w) && w != []
    ensures RunStarts(w + rest, afterSpace) == RunStarts(rest, false)
    decreases |w|
  {
    assert (w + rest)[1..] == w[1..] + rest;
    if |w| > 1 {
      RunStartsSkipWord(w[1..], rest, false);
    } else {
      assert w[1..] + rest == rest;
    }
  }

  lemma {:induction false} RunStartsSkipSpace(s: string, afterSpace: bool)
    requires s != [] && IsWhitespace(s[0])
    ensures RunStarts(s, afterSpace) == (if afterSpace then 0 else 1) + RunStarts(TrimStart(s), false)
    decreases |s|
  {
    if s[1..] != [] && IsWhitespace(s[1]) {
      RunStartsSkipSpace(s[1..], true);
    }
  }

  /** `split(/\s+/)` yields one more piece than there are whitespace runs. */
  lemma {:induction false} SplitCount(s: string)
    ensures |Split(s)| == WhitespaceRuns(s) + 1
    decreases |s|
  {
    var w := Word(s);
    if |w| == |s| {
      assert w == s;
      NoRunsWithoutWhitespace(s, false);
    } else {
      var rest := s[|w|..];
      assert s == w + rest;
      var next := TrimStart(rest);
      RunStartsSkipSpace(rest, false);
      if w != [] {
        RunStartsSkipWord(w, rest, false);
      } else {
        assert s == rest;
      }
      SplitCount(next);
    }
  }

  lemma {:induction false} NoRunsWithoutWhitespace(s: string, afterSpace: bool)
    requires NoWhitespace(s)
    ensures RunStarts(s, afterSpace) == 0
    decreases |s|
  {
    if s != [] {
      NoRunsWithoutWhitespace(s[1..], false);
    }
  }

  /** No piece of `split(/\s+/)` contains whitespace. */
  lemma {:induction false} SplitPiecesHaveNoWhitespace(s: string)
    ensures forall k :: 0 <= k < |Split(s)| ==> NoWhitespace(Split(s)[k])
    decreases |s|
  {
    var w := Word(s);
    if |w| < |s| {
      SplitPiecesHaveNoWhitespace(TrimStart(s[|w|..]));
    }
  }

  /** `p` found at position `i` of `s` means `s.includes(p)`. */
  lemma {:induction false} ContainsAt(s: string, p: string, i: nat)
    requires i + |p| <= |s| && s[i..i + |p|] == p
    ensures Contains(s, p)
    decreases i
  {
    if i > 0 {
      assert s[1..][i - 1..i - 1 + |p|] == p;
      ContainsAt(s[1..], p, i - 1);
    }
  }

  /** A prefix of `s` occurs in `s`. */
  lemma PrefixContained(s: string, p: string)
    requires |p| <= |s| && s[..|p|] == p
    ensures Contains(s, p)
  {
  }

  /** A suffix of `s` occurs in `s`. */
  lemma SuffixContained(s: string, p: string)
    requires |p| <= |s| && s[|s| - |p|..] == p
    ensures Contains(s, p)
  {
    assert s[|s| - |p|..|s| - |p| + |p|] == p;
    ContainsAt(s, p, |s| - |p|);
  }

  /** An occurrence in `s` is still an occurrence after a prefix is put in front. */
  lemma {:induction false} ContainsAfterPrefix(prefix: string, s: string, p: string)
    requires Contains(s, p)
    ensures Contains(prefix + s, p)
    decreases |prefix|
  {
    if prefix != [] {
      assert (prefix + s)[1..] == prefix[1..] + s;
      ContainsAfterPrefix(prefix[1..], s, p);
    } else {
      assert prefix + s == s;
    }
  }

  /** `p` cannot start at position `i` of `prefix`, whatever follows `prefix`:
      the character there differs from the first of `p`, or the next one,
      still inside `prefix`, differs from the second. */
  predicate CannotStartAt(prefix: string, p: string, i: nat)
    requires |p| >= 2 && i < |prefix|
  {
    prefix[i] != p[0] || (i + 1 < |prefix| && prefix[i + 1] != p[1])
  }

  /** A prefix in which `p` cannot start anywhere adds no occurrence of `p`. */
  lemma {:induction false} ContainsSkipPrefix(prefix: string, s: string, p: string)
    requires |p| >= 2
    requires forall i: nat :: i < |prefix| ==> CannotStartAt(prefix, p, i)
    ensures Contains(prefix + s, p) <==> Contains(s, p)
    decreases |prefix|
  {
    if prefix != [] {
      var t := prefix + s;
      assert CannotStartAt(prefix, p, 0);
      assert t[0] == prefix[0] && (|prefix| > 1 ==> t[1] == prefix[1]);
      assert !StartsWith(t, p) by {
        if |p| <= |t| {
          assert t[..|p|][0] == t[0] && t[..|p|][1] == t[1];
        }
      }
      assert t[1..] == prefix[1..] + s;
      forall i: nat | i < |prefix| - 1
        ensures CannotStartAt(prefix[1..], p, i)
      {
        assert CannotStartAt(prefix, p, i + 1);
      }
      ContainsSkipPrefix(prefix[1..], s, p);
    } else {
      assert prefix + s == s;
    }
  }

  /** Where `s.includes(p)` holds, `p` is found at some position. */
  lemma {:induction false} ContainsIndex(s: string, p: string) returns (i: nat)
    requires Contains(s, p)
    ensures i + |p| <= |s| && s[i..i + |p|] == p
    decreases |s|
  {
    if StartsWith(s, p) {
      i := 0;
    } else {
      var j := ContainsIndex(s[1..], p);
      i := j + 1;
      assert s[i..i + |p|] == s[1..][j..j + |p|];
    }
  }

  /** A piece of a piece of `x` is a piece of `x`. */
  lemma ContainsTransitive(x: string, y: string, z: string)
    requires Contains(x, y) && Contains(y, z)
    ensures Contains(x, z)
  {
    var i := ContainsIndex(x, y);
    var k := ContainsIndex(y, z);
    assert x[i + k..i + k + |z|] == z by {
      assert forall j :: 0 <= j < |z| ==> z[j] == y[k + j] == x[i + k + j];
    }
    ContainsAt(x, z, i + k);
  }
}
