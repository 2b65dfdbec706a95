/**
  Text helpers of the two languages the core is written in: Go's
  strings.TrimSpace and strings.Split, and Python's str.strip(),
  str.split() without arguments and str.split(sep).
 */
module Text {

  /** Go's unicode.IsSpace, the test strings.TrimSpace uses. */
  predicate IsSpace(c: char) {
    || c == ' ' || c == '\t' || c == '\n' || c == '\r'
    || c == '\U{000B}' || c == '\U{000C}' || c == '\U{0085}' || c == '\U{00A0}'
    || c == '\U{1680}' || ('\U{2000}' <= c <= '\U{200A}')
    || c == '\U{2028}' || c == '\U{2029}' || c == '\U{202F}' || c == '\U{205F}' || c == '\U{3000}'
  }

  /** Python's str.isspace() on one character: Go's set plus the four
      information separators U+001C..U+001F. */
  predicate IsPySpace(c: char) {
    IsSpace(c) || ('\U{001C}' <= c <= '\U{001F}')
  }

  predicate AllSpace(s: string) {
    forall i :: 0 <= i < |s| ==> IsSpace(s[i])
  }

  predicate AllPySpace(s: string) {
    forall i :: 0 <= i < |s| ==> IsPySpace(s[i])
  }

  predicate NoPySpace(s: string) {
    forall i :: 0 <= i < |s| ==> !IsPySpace(s[i])
  }

  // ---------------------------------------------------------------------------
  // Go: strings.TrimSpace

  /** The position of the first character at or after `i` that is not
      white space. */
  function SkipSpace(s: string, i: nat): (j: nat)
    requires i <= |s|
    ensures i <= j <= |s| && (j == |s| || !IsSpace(s[j]))
    ensures forall k :: i <= k < j ==> IsSpace(s[k])
    decreases |s| - i
  {
    if i < |s| && IsSpace(s[i]) then SkipSpace(s, i + 1) else i
  }

  /** The position just after the last character of s[i..j] that is not
      white space, or `i` when there is none. */
  function BackSpace(s: string, i: nat, j: nat): (e: nat)
    requires i <= j <= |s|
    ensures i <= e <= j && (e == i || !IsSpace(s[e - 1]))
    ensures forall k :: e <= k < j ==> IsSpace(s[k])
    decreases j
  {
    if i < j && IsSpace(s[j - 1]) then BackSpace(s, i, j - 1) else j
  }

  /** strings.TrimSpace: the slice of `s` between its leading and its
      trailing white space, which neither starts nor ends with white space. */
  function TrimSpace(s: string): (r: string)
    ensures var i := SkipSpace(s, 0);
      && i + |r| <= |s| && r == s[i..i + |r|]
      && (forall k :: 0 <= k < i ==> IsSpace(s[k]))
      && (forall k :: i + |r| <= k < |s| ==> IsSpace(s[k]))
      && (r == [] || (!IsSpace(r[0]) && !IsSpace(r[|r| - 1])))
  {
    var i := SkipSpace(s, 0);
    var e := BackSpace(s, i, |s|);
    assert e > i ==> s[i..e][0] == s[i] && s[i..e][e - i - 1] == s[e - 1];
    s[i..e]
  }

  /** A sequence is its three consecutive slices put back together. */
  lemma ThreeSlices<T>(s: seq<T>, i: nat, k: nat)
    requires i + k <= |s|
    ensures s == s[..i] + (s[i..i + k] + s[i + k..])
  {
  }

  /** Trimming is idempotent. */
  lemma {:induction false} TrimSpaceIdempotent(s: string)
    ensures TrimSpace(TrimSpace(s)) == TrimSpace(s)
  {
    TrimSpaceOfTrimmed(TrimSpace(s));
  }

  /** A string that neither starts nor ends with white space is its own trim. */
  lemma TrimSpaceOfTrimmed(t: string)
    requires t == [] || (!IsSpace(t[0]) && !IsSpace(t[|t| - 1]))
    ensures TrimSpace(t) == t
  {
  }

  // ---------------------------------------------------------------------------
  // Splitting on one separator: Go's strings.Split(s, sep) and Python's
  // s.split(sep) agree for a one-character separator.

  /** The parts joined back with the separator between them. */
  function Join(parts: seq<string>, sep: char): string
    requires |parts| >= 1
  {
    if |parts| == 1 then parts[0] else parts[0] + [sep] + Join(parts[1..], sep)
  }

  predicate SepFree(parts: seq<string>, sep: char) {
    forall i :: 0 <= i < |parts| ==> sep !in parts[i]
  }

  /** Splits `s` at every occurrence of `sep`: there is always at least one
      part (the empty string splits into one empty part) and no part
      contains the separator. */
  function Split(s: string, sep: char): (parts: seq<string>)
    ensures |parts| >= 1
    ensures SepFree(parts, sep)
  {
    if s == [] then
      [[]]
    else
      var rest := Split(s[1..], sep);
      if s[0] == sep then
        assert ([[]] + rest)[1..] == rest;
        [[]] + rest
      else
        var parts := [[s[0]] + rest[0]] + rest[1..];
        assert parts[1..] == rest[1..];
        assert sep !in parts[0];
        parts
  }

  /** Joining the parts with the separator gives `s` back. */
  lemma {:induction false} JoinSplit(s: string, sep: char)
    ensures Join(Split(s, sep), sep) == s
  {
    if s != [] {
      var rest := Split(s[1..], sep);
      JoinSplit(s[1..], sep);
      if s[0] == sep {
        assert Split(s, sep) == [[]] + rest;
        assert ([[]] + rest)[1..] == rest;
      } else {
        var parts := [[s[0]] + rest[0]] + rest[1..];
        assert Split(s, sep) == parts;
        assert parts[1..] == rest[1..];
        if |rest| > 1 {
          assert Join(rest, sep) == rest[0] + [sep] + Join(rest[1..], sep);
        }
      }
    }
  }

  /** The other half of the round trip: separator-free parts survive a join
      followed by a split. */
  lemma {:induction false} SplitJoin(parts: seq<string>, sep: char)
    requires |parts| >= 1 && SepFree(parts, sep)
    ensures Split(Join(parts, sep), sep) == parts
    decreases |Join(parts, sep)|
  {
    var s := Join(parts, sep);
    if parts[0] == [] {
      if |parts| > 1 {
        assert s == [sep] + Join(parts[1..], sep);
        assert s[1..] == Join(parts[1..], sep);
        SplitJoin(parts[1..], sep);
        assert [[]] + parts[1..] == parts;
      }
    } else {
      var c, t := parts[0][0], parts[0][1..];
      var shorter := [t] + parts[1..];
      assert shorter[1..] == parts[1..];
      assert SepFree(shorter, sep) by {
        forall i | 0 <= i < |shorter| ensures sep !in shorter[i] {
          if i == 0 {
            assert forall k :: 0 <= k < |t| ==> t[k] == parts[0][k + 1];
          } else {
            assert shorter[i] == parts[i];
          }
        }
      }
      assert s == [c] + Join(shorter, sep) by {
        assert parts[0] == [c] + t;
      }
      assert s[1..] == Join(shorter, sep);
      SplitJoin(shorter, sep);
      assert c != sep by { assert c == parts[0][0]; }
      assert Split(s, sep) == [[c] + t] + parts[1..];
      assert parts == [parts[0]] + parts[1..];
      assert [c] + t == parts[0];
    }
  }

  /** Joining with at least two parts puts the last part after the last separator. */
  lemma {:induction false} JoinLast(parts: seq<string>, sep: char)
    requires |parts| >= 2
    ensures Join(parts, sep) == Join(parts[..|parts| - 1], sep) + [sep] + parts[|parts| - 1]
    decreases |parts|
  {
    if |parts| > 2 {
      JoinLast(parts[1..], sep);
      assert parts[1..][..|parts| - 2] == parts[..|parts| - 1][1..];
      assert parts[1..][|parts| - 2] == parts[|parts| - 1];
    } else {
      assert parts[..1] == [parts[0]];
    }
  }

  /** Python's url.split('/')[-1]: the text after the last '/' of `url`,
      or all of `url` when it has no '/'. */
  function LastSegment(url: string): (r: string)
    ensures '/' !in r
    ensures |r| <= |url| && url[|url| - |r|..] == r
    ensures |r| < |url| ==> url[|url| - |r| - 1] == '/'
    ensures |r| == |url| ==> '/' !in url
  {
    var parts := Split(url, '/');
    var r := parts[|parts| - 1];
    JoinSplit(url, '/');
    if |parts| >= 2 then
      JoinLast(parts, '/');
      var prefix := Join(parts[..|parts| - 1], '/');
      assert url == prefix + ['/'] + r;
      assert url[|url| - |r|..] == r;
      assert url[|url| - |r| - 1] == '/';
      r
    else
      assert url == r;
      r
  }

  // ---------------------------------------------------------------------------
  // Python: str.strip() and str.split() without arguments

  /** The longest prefix of `s` free of white space. */
  function Token(s: string): (t: string)
    ensures |t| <= |s| && t == s[..|t|]
    ensures NoPySpace(t)
    ensures |t| < |s| ==> IsPySpace(s[|t|])
  {
    if s == [] || IsPySpace(s[0]) then [] else [s[0]] + Token(s[1..])
  }

  /** str.split() without arguments: the maximal runs of non-space
      characters, in order; every field is non-empty and space-free. */
  function Fields(s: string): (r: seq<string>)
    ensures forall i :: 0 <= i < |r| ==> r[i] != [] && NoPySpace(r[i])
    decreases |s|
  {
    if s == [] then []
    else if IsPySpace(s[0]) then Fields(s[1..])
    else
      var t := Token(s);
      [t] + Fields(s[|t|..])
  }

  /** The position of the first character at or after `i` that is not
      Python white space. */
  function SkipPySpace(s: string, i: nat): (j: nat)
    requires i <= |s|
    ensures i <= j <= |s| && (j == |s| || !IsPySpace(s[j]))
    ensures forall k :: i <= k < j ==> IsPySpace(s[k])
    decreases |s| - i
  {
    if i < |s| && IsPySpace(s[i]) then SkipPySpace(s, i + 1) else i
  }

  /** The position just after the last character of s[i..j] that is not
      Python white space, or `i` when there is none. */
  function BackPySpace(s: string, i: nat, j: nat): (e: nat)
    requires i <= j <= |s|
    ensures i <= e <= j && (e == i || !IsPySpace(s[e - 1]))
    ensures forall k :: e <= k < j ==> IsPySpace(s[k])
    decreases j
  {
    if i < j && IsPySpace(s[j - 1]) then BackPySpace(s, i, j - 1) else j
  }

  /** str.strip() without arguments: the slice of `s` between its leading
      and its trailing white space. */
  function PyStrip(s: string): (r: string)
    ensures var i := SkipPySpace(s, 0);
      && i + |r| <= |s| && r == s[i..i + |r|]
      && (forall k :: 0 <= k < i ==> IsPySpace(s[k]))
      && (forall k :: i + |r| <= k < |s| ==> IsPySpace(s[k]))
      && (r == [] || (!IsPySpace(r[0]) && !IsPySpace(r[|r| - 1])))
  {
    var i := SkipPySpace(s, 0);
    var e := BackPySpace(s, i, |s|);
    assert e > i ==> s[i..e][0] == s[i] && s[i..e][e - i - 1] == s[e - 1];
    s[i..e]
  }

  /** Leading white space never changes the fields. */
  lemma {:induction false} FieldsSkipLeading(w: string, s: string)
    requires AllPySpace(w)
    ensures Fields(w + s) == Fields(s)
    decreases |w|
  {
    if w != [] {
      assert IsPySpace(w[0]);
      assert (w + s)[0] == w[0];
      assert (w + s)[1..] == w[1..] + s;
      assert Fields(w + s) == Fields(w[1..] + s);
      assert AllPySpace(w[1..]) by {
        forall k | 0 <= k < |w| - 1 ensures IsPySpace(w[1..][k]) {
          assert w[1..][k] == w[k + 1];
        }
      }
      FieldsSkipLeading(w[1..], s);
    } else {
      assert w + s == s;
    }
  }

  /** Trailing white space never changes the fields. */
  lemma {:induction false} FieldsSkipTrailing(s: string, w: string)
    requires AllPySpace(w)
    ensures Fields(s + w) == Fields(s)
    decreases |s|
  {
    if s == [] {
      assert w + [] == w;
      FieldsSkipLeading(w, []);
      assert s + w == w + [];
    } else if IsPySpace(s[0]) {
      assert (s + w)[1..] == s[1..] + w;
      FieldsSkipTrailing(s[1..], w);
    } else {
      var t := Token(s);
      TokenExtends(s, w);
      assert (s + w)[|t|..] == s[|t|..] + w;
      FieldsSkipTrailing(s[|t|..], w);
    }
  }

  /** The first token of `s` is unchanged by appended white space. */
  lemma {:induction false} TokenExtends(s: string, w: string)
    requires AllPySpace(w)
    ensures Token(s + w) == Token(s)
    decreases |s|
  {
    if s == [] {
      assert s + w == w;
    } else if !IsPySpace(s[0]) {
      assert (s + w)[1..] == s[1..] + w;
      TokenExtends(s[1..], w);
    }
  }

  /** `line.strip().split()` splits exactly as `line.split()` does. */
  lemma FieldsOfStrip(s: string)
    ensures Fields(PyStrip(s)) == Fields(s)
  {
    var i := SkipPySpace(s, 0);
    var r := PyStrip(s);
    var lead, tail := s[..i], s[i + |r|..];
    ThreeSlices(s, i, |r|);
    assert AllPySpace(lead) && AllPySpace(tail);
    FieldsSkipLeading(lead, r + tail);
    FieldsSkipTrailing(r, tail);
  }
}
