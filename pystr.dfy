/** The few operations on Python `str` values that the search tool relies on:
    `str.strip()` with no argument, `str.split(sep)` with an explicit one-character
    separator, `str.lower()` and the substring test `needle in s`. */
module PyStr {

  /** `c.isspace()`: the characters Python 3 treats as whitespace, which is what
      `str.strip()` with no argument removes. */
  predicate IsSpace(c: char) {
    var n := c as int;
    (9 <= n <= 13) || (28 <= n <= 32) || n == 0x85 || n == 0xA0 || n == 0x1680 ||
    (0x2000 <= n <= 0x200A) || n == 0x2028 || n == 0x2029 || n == 0x202F ||
    n == 0x205F || n == 0x3000
  }

  predicate AllSpace(s: string) {
    forall i :: 0 <= i < |s| ==> IsSpace(s[i])
  }

  /** `s.strip()`: `s` without its leading and its trailing whitespace. */
  function Strip(s: string): (r: string)
    ensures |r| <= |s|
  {
    if s == [] then []
    else if IsSpace(s[0]) then Strip(s[1..])
    else if IsSpace(s[|s| - 1]) then Strip(s[..|s| - 1])
    else s
  }

  /** `r` is the slice of `s` starting at `lo`, with only whitespace before and
      after it. */
  predicate StrippedAt(s: string, r: string, lo: int) {
    0 <= lo <= |s| - |r| && r == s[lo..lo + |r|] &&
    (forall i :: 0 <= i < lo ==> IsSpace(s[i])) &&
    (forall i :: lo + |r| <= i < |s| ==> IsSpace(s[i]))
  }

  /** What `Strip` leaves is a slice of `s` with only whitespace around it, it
      neither starts nor ends with whitespace, and it is empty exactly when `s`
      is all whitespace. */
  lemma {:induction false} StripSpec(s: string)
    ensures exists lo :: StrippedAt(s, Strip(s), lo)
    ensures Strip(s) == [] || (!IsSpace(Strip(s)[0]) && !IsSpace(Strip(s)[|Strip(s)| - 1]))
    ensures Strip(s) == [] <==> AllSpace(s)
    decreases |s|
  {
    var r := Strip(s);
    if s == [] {
      assert StrippedAt(s, r, 0);
    } else if IsSpace(s[0]) {
      var t := s[1..];
      StripSpec(t);
      var lo :| StrippedAt(t, r, lo);
      assert StrippedAt(s, r, lo + 1) by {
        DropOneSlice(s, t, lo, |r|);
        forall i | 0 <= i < lo + 1 ensures IsSpace(s[i]) {
          if i > 0 { assert s[i] == t[i - 1]; }
        }
        forall i | lo + 1 + |r| <= i < |s| ensures IsSpace(s[i]) {
          assert s[i] == t[i - 1];
        }
      }
      if r == [] {
        forall i | 0 <= i < |s| ensures IsSpace(s[i]) {
          if i > 0 { assert s[i] == t[i - 1]; }
        }
      }
    } else if IsSpace(s[|s| - 1]) {
      var t := s[..|s| - 1];
      StripSpec(t);
      var lo :| StrippedAt(t, r, lo);
      assert StrippedAt(s, r, lo) by {
        assert s[lo..lo + |r|] == t[lo..lo + |r|];
        forall i | lo + |r| <= i < |s| ensures IsSpace(s[i]) {
          if i < |s| - 1 { assert s[i] == t[i]; }
        }
      }
    } else {
      assert StrippedAt(s, r, 0);
    }
  }

  lemma DropOneSlice(s: string, t: string, lo: int, n: int)
    requires |s| > 0 && t == s[1..] && 0 <= lo && 0 <= n && lo + n <= |t|
    ensures s[lo + 1..lo + 1 + n] == t[lo..lo + n]
  {
    var left, right := s[lo + 1..lo + 1 + n], t[lo..lo + n];
    forall i | 0 <= i < n ensures left[i] == right[i] {
      assert s[lo + 1 + i] == t[lo + i];
    }
  }

  /** A string that neither starts nor ends with whitespace is left as it is. */
  lemma StripUnchanged(s: string)
    requires s == [] || (!IsSpace(s[0]) && !IsSpace(s[|s| - 1]))
    ensures Strip(s) == s
  {
  }

  /** `parts` glued back together with `sep` between neighbours: the inverse of
      `Split`. */
  function Join(parts: seq<string>, sep: char): (s: string)
    requires |parts| > 0
  {
    if |parts| == 1 then parts[0] else parts[0] + [sep] + Join(parts[1..], sep)
  }

  /** `s.split(sep)` for a one-character separator: every occurrence of `sep`
      cuts, so "" gives [""] and a trailing separator gives a trailing "". */
  function Split(s: string, sep: char): (parts: seq<string>)
    ensures |parts| > 0
    ensures forall i :: 0 <= i < |parts| ==> sep !in parts[i]
    ensures Join(parts, sep) == s
  {
    if s == [] then [[]]
    else
      var rest := Split(s[1..], sep);
      if s[0] == sep then [[]] + rest
      else
        var parts := [[s[0]] + rest[0]] + rest[1..];
        assert parts[1..] == rest[1..];
        parts
  }

  /** `c.lower()` for the ASCII letters. */
  function LowerChar(c: char): char {
    if 'A' <= c <= 'Z' then (c as int + 32) as char else c
  }

  /** `s.lower()`, letter by letter. */
  function Lower(s: string): (r: string)
    ensures |r| == |s|
    ensures forall i :: 0 <= i < |s| ==> r[i] == LowerChar(s[i])
  {
    if s == [] then [] else [LowerChar(s[0])] + Lower(s[1..])
  }

  /** `needle in s` for strings: `needle` occurs as a contiguous slice of `s`. */
  predicate Contains(s: string, needle: string) {
    exists i | 0 <= i <= |s| - |needle| :: OccursAt(s, needle, i)
  }

  /** `needle` is the slice of `s` that starts at index `i`. */
  predicate OccursAt(s: string, needle: string, i: int) {
    0 <= i <= |s| - |needle| && s[i..i + |needle|] == needle
  }

  /** Stripping is idempotent: what `Strip` returns has nothing left to strip. */
  lemma StripStripped(s: string)
    ensures Strip(Strip(s)) == Strip(s)
  {
    StripSpec(s);
    StripUnchanged(Strip(s));
  }

  /** No two different separator-free lists glue to the same string. */
  lemma {:induction false} JoinInjective(p: seq<string>, q: seq<string>, sep: char)
    requires |p| > 0 && |q| > 0
    requires forall i :: 0 <= i < |p| ==> sep !in p[i]
    requires forall i :: 0 <= i < |q| ==> sep !in q[i]
    requires Join(p, sep) == Join(q, sep)
    ensures p == q
  {
    var s := Join(p, sep);
    JoinHead(p, sep);
    JoinHead(q, sep);
    assert p[0] == s[..|p[0]|] == q[0];
    if |p| > 1 && |q| > 1 {
      assert Join(p[1..], sep) == s[|p[0]| + 1..] == Join(q[1..], sep);
      JoinInjective(p[1..], q[1..], sep);
      assert p == [p[0]] + p[1..];
      assert q == [q[0]] + q[1..];
    }
  }

  /** The first part is the text before the first separator, which sits right
      after it when there is more than one part. */
  lemma JoinHead(p: seq<string>, sep: char)
    requires |p| > 0
    ensures |Join(p, sep)| >= |p[0]| && Join(p, sep)[..|p[0]|] == p[0]
    ensures |p| == 1 ==> Join(p, sep) == p[0]
    ensures |p| > 1 ==> |Join(p, sep)| > |p[0]| && Join(p, sep)[|p[0]|] == sep &&
                        Join(p, sep)[|p[0]| + 1..] == Join(p[1..], sep)
  {
    if |p| > 1 {
      var s := Join(p, sep);
      assert s == p[0] + [sep] + Join(p[1..], sep);
      assert s[..|p[0]|] == p[0];
      assert s[|p[0]| + 1..] == Join(p[1..], sep);
    }
  }

  /** Splitting undoes joining: `sep.join(parts).split(sep) == parts` for parts
      that hold no separator. */
  lemma SplitJoin(parts: seq<string>, sep: char)
    requires |parts| > 0
    requires forall i :: 0 <= i < |parts| ==> sep !in parts[i]
    ensures Split(Join(parts, sep), sep) == parts
  {
    JoinInjective(Split(Join(parts, sep), sep), parts, sep);
  }

  /** Lower-casing commutes with slicing. */
  lemma LowerSlice(s: string, i: int, j: int)
    requires 0 <= i <= j <= |s|
    ensures Lower(s)[i..j] == Lower(s[i..j])
  {
  }
}
