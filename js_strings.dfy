/**
 * The JavaScript string operations the client relies on, written out:
 * `trim`, the `\s` class, `toLowerCase`, `includes`, `split`, the
 * `replace(/\s+/g, d)` rewrite and `String(n)` for integers.
 */
module JsStrings {

  /** ECMAScript WhiteSpace and LineTerminator: what `\s` matches and `trim` removes. */
  predicate IsSpace(c: char) {
    || c == ' ' || c == '\t' || c == '\n' || c == '\U{000B}' || c == '\U{000C}' || c == '\r'
    || c == '\U{00A0}' || c == '\U{1680}' || ('\U{2000}' <= c <= '\U{200A}')
    || c == '\U{2028}' || c == '\U{2029}' || c == '\U{202F}' || c == '\U{205F}'
    || c == '\U{3000}' || c == '\U{FEFF}'
  }

  /** How many characters of whitespace `s` starts with. */
  function LeadingSpaces(s: string): (n: nat)
    ensures n <= |s|
    ensures forall k :: 0 <= k < n ==> IsSpace(s[k])
    ensures n < |s| ==> !IsSpace(s[n])
    decreases |s|
  {
    if s != [] && IsSpace(s[0]) then
      var n := 1 + LeadingSpaces(s[1..]);
      assert forall k :: 1 <= k < n ==> s[k] == s[1..][k - 1];
      n
    else 0
  }

  /** How many characters of whitespace `s` ends with. */
  function TrailingSpaces(s: string): (n: nat)
    ensures n <= |s|
    ensures forall k :: |s| - n <= k < |s| ==> IsSpace(s[k])
    ensures n < |s| ==> !IsSpace(s[|s| - n - 1])
    decreases |s|
  {
    if s != [] && IsSpace(s[|s| - 1]) then 1 + TrailingSpaces(s[..|s| - 1]) else 0
  }

  /** No character of `s` is whitespace. */
  predicate NoSpace(s: string) {
    forall i :: 0 <= i < |s| ==> !IsSpace(s[i])
  }

  /** Leading whitespace removed. */
  function TrimStart(s: string): (r: string)
    ensures |r| <= |s| && r == s[|s| - |r|..]
    ensures r == [] || !IsSpace(r[0])
    ensures forall i :: 0 <= i < |s| - |r| ==> IsSpace(s[i])
  {
    s[LeadingSpaces(s)..]
  }

  /** Trailing whitespace removed. */
  function TrimEnd(s: string): (r: string)
    ensures |r| <= |s| && r == s[..|r|]
    ensures r == [] || !IsSpace(r[|r| - 1])
    ensures forall i :: |r| <= i < |s| ==> IsSpace(s[i])
  {
    s[..|s| - TrailingSpaces(s)]
  }

  /** Everything before `i` and from `j` on is whitespace. */
  predicate SpaceOutside(s: string, i: int, j: int)
    requires 0 <= i <= j <= |s|
  {
    (forall k :: 0 <= k < i ==> IsSpace(s[k])) && (forall k :: j <= k < |s| ==> IsSpace(s[k]))
  }

  /** `s.trim()`: the slice of `s` left once the whitespace at both ends is cut away. */
  function Trim(s: string): (r: string)
    ensures r == [] || (!IsSpace(r[0]) && !IsSpace(r[|r| - 1]))
    ensures s == [] || (!IsSpace(s[0]) && !IsSpace(s[|s| - 1])) ==> r == s
    ensures exists i, j :: 0 <= i <= j <= |s| && r == s[i..j] && SpaceOutside(s, i, j)
  {
    var i := LeadingSpaces(s);
    var m := s[i..];
    var n := TrailingSpaces(m);
    assert m[..|m| - n] == s[i..|s| - n];
    assert SpaceOutside(s, i, |s| - n) by {
      forall k | |s| - n <= k < |s|
        ensures IsSpace(s[k])
      {
        assert s[k] == m[k - i];
      }
    }
    TrimEnd(TrimStart(s))
  }

  /** A character with one space on each side trims to the character. */
  lemma TrimPadded(c: char)
    requires !IsSpace(c)
    ensures Trim([' ', c, ' ']) == [c]
  {
    var s := [' ', c, ' '];
    assert IsSpace(s[0]) && !IsSpace(s[1]);
    assert LeadingSpaces(s) == 1;
    var m := s[1..];
    assert m == [c, ' '];
    assert IsSpace(m[1]) && !IsSpace(m[0]);
    assert TrailingSpaces(m) == 1;
    assert m[..1] == [c];
  }

  /** The whitespace-only strings are exactly those that trim to the empty string. */
  lemma TrimEmptyIff(s: string)
    ensures Trim(s) == [] <==> forall i :: 0 <= i < |s| ==> IsSpace(s[i])
  {
    if Trim(s) == [] {
      assert TrimStart(s) == [];
    }
  }

  /** The capitals `toLowerCase` maps in the range modelled: ASCII and Latin-1 (`\U{00D7}` is not a letter). */
  predicate IsUpper(c: char) {
    'A' <= c <= 'Z' || ('\U{00C0}' <= c <= '\U{00DE}' && c != '\U{00D7}')
  }

  /** `c.toLowerCase()` for Basic Latin and Latin-1 letters. */
  function LowerChar(c: char): char {
    if IsUpper(c) then (c as int + 32) as char else c
  }

  /** `s.toLowerCase()`: no capital is left, each capital becomes its small letter, the rest is kept. */
  function Lower(s: string): (r: string)
    ensures |r| == |s|
    ensures forall i :: 0 <= i < |r| ==> !IsUpper(r[i])
    ensures forall i :: 0 <= i < |s| && !IsUpper(s[i]) ==> r[i] == s[i]
    ensures forall i :: 0 <= i < |s| && IsUpper(s[i]) ==> r[i] as int == s[i] as int + 32
    ensures (forall i :: 0 <= i < |s| ==> !IsUpper(s[i])) ==> r == s
  {
    seq(|s|, i requires 0 <= i < |s| => LowerChar(s[i]))
  }

  /** Lower-casing an already lower-cased string changes nothing. */
  lemma LowerIdempotent(s: string)
    ensures Lower(Lower(s)) == Lower(s)
  {
  }

  /** Lower-casing never turns a non-space into whitespace or back, so it commutes with trim. */
  lemma LowerPreservesSpace(c: char)
    ensures IsSpace(LowerChar(c)) <==> IsSpace(c)
  {
  }

  predicate StartsWith(s: string, p: string) {
    |p| <= |s| && s[..|p|] == p
  }

  /** `sub` occurs in `s` starting at index `i`. */
  predicate OccursAt(s: string, sub: string, i: int) {
    0 <= i && i + |sub| <= |s| && s[i..i + |sub|] == sub
  }

  /** `s.includes(sub)`, searching left to right. */
  predicate Includes(s: string, sub: string)
    decreases |s|
  {
    StartsWith(s, sub) || (s != [] && Includes(s[1..], sub))
  }

  /** The search finds `sub` exactly when it occurs at some index. */
  lemma {:induction false} IncludesIff(s: string, sub: string)
    ensures Includes(s, sub) <==> exists i :: OccursAt(s, sub, i)
    decreases |s|
  {
    if StartsWith(s, sub) {
      assert OccursAt(s, sub, 0);
    } else if s != [] {
      IncludesIff(s[1..], sub);
      if exists i :: OccursAt(s[1..], sub, i) {
        var i :| OccursAt(s[1..], sub, i);
        assert s[i + 1..i + 1 + |sub|] == s[1..][i..i + |sub|];
        assert OccursAt(s, sub, i + 1);
      }
      if exists i :: OccursAt(s, sub, i) {
        var i :| OccursAt(s, sub, i);
        if i != 0 {
          assert s[1..][i - 1..i - 1 + |sub|] == s[i..i + |sub|];
          assert OccursAt(s[1..], sub, i - 1);
        }
      }
    }
  }

  /** Everything that contains `b` contains whatever `b` contains. */
  lemma IncludesTransitive(a: string, b: string, c: string)
    requires Includes(a, b) && Includes(b, c)
    ensures Includes(a, c)
  {
    IncludesIff(a, b);
    IncludesIff(b, c);
    var i :| OccursAt(a, b, i);
    var j :| OccursAt(b, c, j);
    forall k | 0 <= k < |c| ensures a[i + j + k] == c[k] {
      assert a[i + j + k] == a[i..i + |b|][j + k];
      assert b[j + k] == b[j..j + |c|][k];
    }
    assert a[i + j..i + j + |c|] == c;
    assert OccursAt(a, c, i + j);
    IncludesIff(a, c);
  }

  /** `s.split(sep)` for a one-character separator: never empty, pieces hold no separator. */
  function Split(s: string, sep: char): (r: seq<string>)
    ensures |r| >= 1
    ensures forall k :: 0 <= k < |r| ==> sep !in r[k]
    decreases |s|
  {
    if s == [] then [""]
    else
      var rest := Split(s[1..], sep);
      if s[0] == sep then [""] + rest else [[s[0]] + rest[0]] + rest[1..]
  }

  /** `xs.join(sep)` */
  function Join(xs: seq<string>, sep: char): string
    decreases |xs|
  {
    if xs == [] then "" else if |xs| == 1 then xs[0] else xs[0] + [sep] + Join(xs[1..], sep)
  }

  /** Joining the pieces of a split gives back the original string. */
  lemma {:induction false} JoinSplit(s: string, sep: char)
    ensures Join(Split(s, sep), sep) == s
    decreases |s|
  {
    if s != [] {
      var rest := Split(s[1..], sep);
      JoinSplit(s[1..], sep);
      if s[0] == sep {
        assert Split(s, sep) == [""] + rest;
      } else {
        var r := Split(s, sep);
        assert r == [[s[0]] + rest[0]] + rest[1..];
        if |rest| == 1 {
          assert Join(r, sep) == [s[0]] + rest[0];
        } else {
          assert r[1..] == rest[1..];
          assert Join(r, sep) == [s[0]] + rest[0] + [sep] + Join(rest[1..], sep);
          assert Join(rest, sep) == rest[0] + [sep] + Join(rest[1..], sep);
        }
      }
    }
  }

  /** A separator-free prefix followed by the separator splits off as one piece. */
  lemma {:induction false} SplitAfterPiece(x: string, t: string, sep: char)
    requires sep !in x
    ensures Split(x + [sep] + t, sep) == [x] + Split(t, sep)
    decreases |x|
  {
    if x == [] {
      assert x + [sep] + t == [sep] + t;
      assert ([sep] + t)[1..] == t;
    } else {
      assert (x + [sep] + t)[1..] == x[1..] + [sep] + t;
      SplitAfterPiece(x[1..], t, sep);
      assert [x[0]] + x[1..] == x;
    }
  }

  /** A separator-free string splits into itself alone. */
  lemma {:induction false} SplitNoSeparator(x: string, sep: char)
    requires sep !in x
    ensures Split(x, sep) == [x]
    decreases |x|
  {
    if x != [] {
      SplitNoSeparator(x[1..], sep);
      assert [x[0]] + x[1..] == x;
    }
  }

  /** Splitting a join of separator-free pieces gives back the pieces. */
  lemma {:induction false} SplitJoin(xs: seq<string>, sep: char)
    requires |xs| >= 1
    requires forall k :: 0 <= k < |xs| ==> sep !in xs[k]
    ensures Split(Join(xs, sep), sep) == xs
    decreases |xs|
  {
    if |xs| == 1 {
      SplitNoSeparator(xs[0], sep);
    } else {
      SplitJoin(xs[1..], sep);
      SplitAfterPiece(xs[0], Join(xs[1..], sep), sep);
      assert [xs[0]] + xs[1..] == xs;
    }
  }

  /** `s.replace(/\s+/g, d)`: every maximal run of whitespace becomes one `d`. */
  function ReplaceSpaceRuns(s: string, d: char): (r: string)
    ensures !IsSpace(d) ==> NoSpace(r)
    ensures NoSpace(s) ==> r == s
    ensures |r| <= |s|
    decreases |s|
  {
    if s == [] then []
    else if IsSpace(s[0]) then
      var rest := TrimStart(s);
      assert |rest| < |s|;
      [d] + ReplaceSpaceRuns(rest, d)
    else
      [s[0]] + ReplaceSpaceRuns(s[1..], d)
  }

  /** After a stretch of leading whitespace, `TrimStart` stops exactly where the whitespace ends. */
  lemma TrimStartSpaces(w: string, t: string)
    requires forall k :: 0 <= k < |w| ==> IsSpace(w[k])
    requires t == [] || !IsSpace(t[0])
    ensures TrimStart(w + t) == t
  {
    assert LeadingSpaces(w + t) == |w|;
    assert (w + t)[|w|..] == t;
  }

  /** A whole whitespace run at the front becomes one `d`. */
  lemma ReplaceSpaceRunsAtRun(w: string, t: string, d: char)
    requires w != [] && forall k :: 0 <= k < |w| ==> IsSpace(w[k])
    requires t == [] || !IsSpace(t[0])
    ensures ReplaceSpaceRuns(w + t, d) == [d] + ReplaceSpaceRuns(t, d)
  {
    assert (w + t)[0] == w[0];
    TrimStartSpaces(w, t);
  }

  /** A character that is not whitespace is kept. */
  lemma ReplaceSpaceRunsAtNonSpace(c: char, s: string, d: char)
    requires !IsSpace(c)
    ensures ReplaceSpaceRuns([c] + s, d) == [c] + ReplaceSpaceRuns(s, d)
  {
    assert ([c] + s)[1..] == s;
  }

  /** Splitting the first character off a concatenation. */
  lemma ConcatFirst(p: string, x: string)
    requires p != []
    ensures p + x == [p[0]] + (p[1..] + x)
  {
  }

  /** A whitespace-free prefix is kept as it is. */
  lemma {:induction false} ReplaceSpaceRunsKeepsPrefix(p: string, s: string, d: char)
    requires NoSpace(p)
    ensures ReplaceSpaceRuns(p + s, d) == p + ReplaceSpaceRuns(s, d)
    decreases |p|
  {
    if p == [] {
      assert p + s == s;
    } else {
      ConcatFirst(p, s);
      ConcatFirst(p, ReplaceSpaceRuns(s, d));
      ReplaceSpaceRunsAtNonSpace(p[0], p[1..] + s, d);
      ReplaceSpaceRunsKeepsPrefix(p[1..], s, d);
    }
  }

  /**
   * The rewrite of one run: a whitespace-free prefix is kept, the whole run
   * `w` that follows it becomes a single `d`, and the rewrite goes on after the run.
   */
  lemma ReplaceSpaceRunsRun(p: string, w: string, t: string, d: char)
    requires forall k :: 0 <= k < |p| ==> !IsSpace(p[k])
    requires w != [] && forall k :: 0 <= k < |w| ==> IsSpace(w[k])
    requires t == [] || !IsSpace(t[0])
    ensures ReplaceSpaceRuns(p + w + t, d) == p + [d] + ReplaceSpaceRuns(t, d)
  {
    assert p + w + t == p + (w + t);
    ReplaceSpaceRunsKeepsPrefix(p, w + t, d);
    ReplaceSpaceRunsAtRun(w, t, d);
  }

  /** Lower-casing and rewriting a small-letter word, a whitespace run and another small-letter word. */
  lemma ReplaceSpaceRunsOfSmallRun(p: string, w: string, t: string, d: char)
    requires forall k :: 0 <= k < |p| ==> !IsSpace(p[k]) && !IsUpper(p[k])
    requires w != [] && forall k :: 0 <= k < |w| ==> IsSpace(w[k])
    requires forall k :: 0 <= k < |t| ==> !IsSpace(t[k]) && !IsUpper(t[k])
    ensures ReplaceSpaceRuns(Lower(p + w + t), d) == p + [d] + t
  {
    var v := p + w + t;
    forall k | 0 <= k < |v|
      ensures !IsUpper(v[k])
    {
      if k < |p| {
        assert v[k] == p[k];
      } else if k < |p| + |w| {
        assert v[k] == w[k - |p|];
      } else {
        assert v[k] == t[k - |p| - |w|];
      }
    }
    assert Lower(v) == v;
    ReplaceSpaceRunsRun(p, w, t, d);
  }

  /** A run of two spaces between two letters becomes one hyphen. */
  lemma ReplaceSpaceRunsExample()
    ensures ReplaceSpaceRuns("a  b", '-') == "a-b"
  {
    assert "a  b" == "a" + "  " + "b";
    ReplaceSpaceRunsRun("a", "  ", "b", '-');
  }

  /** Rewriting whitespace runs a second time changes nothing. */
  lemma ReplaceSpaceRunsIdempotent(s: string, d: char)
    requires !IsSpace(d)
    ensures ReplaceSpaceRuns(ReplaceSpaceRuns(s, d), d) == ReplaceSpaceRuns(s, d)
  {
  }

  predicate IsDigit(c: char) { '0' as int <= c as int <= '9' as int }

  function DigitValue(c: char): (d: nat)
    requires IsDigit(c)
    ensures d < 10
  {
    c as int - '0' as int
  }

  function DigitChar(d: nat): (c: char)
    requires d < 10
    ensures IsDigit(c) && DigitValue(c) == d
  {
    ('0' as int + d) as char
  }

  /** `String(n)` for a non-negative integer: decimal digits, no leading zero. */
  function NatToString(n: nat): (r: string)
    ensures |r| >= 1
    ensures forall i :: 0 <= i < |r| ==> IsDigit(r[i])
    ensures r[0] == '0' ==> n == 0
    decreases n
  {
    if n < 10 then [DigitChar(n)] else NatToString(n / 10) + [DigitChar(n % 10)]
  }

  /** The number a string of decimal digits denotes. */
  function DigitsValue(s: string): nat
    requires forall i :: 0 <= i < |s| ==> IsDigit(s[i])
    decreases |s|
  {
    if s == [] then 0 else DigitsValue(s[..|s| - 1]) * 10 + DigitValue(s[|s| - 1])
  }

  /** Reading the printed digits back gives the number. */
  lemma {:induction false} NatToStringRoundTrip(n: nat)
    ensures DigitsValue(NatToString(n)) == n
    decreases n
  {
    if n >= 10 {
      NatToStringRoundTrip(n / 10);
      var s := NatToString(n);
      assert s[..|s| - 1] == NatToString(n / 10);
    }
  }

  /** `String(i)` for an integer. */
  function IntToString(i: int): (r: string)
    ensures forall k :: 0 <= k < |r| ==> IsDigit(r[k]) || (k == 0 && r[k] == '-')
    ensures |r| >= 1 && (r[0] == '-' <==> i < 0)
  {
    if i < 0 then "-" + NatToString(-i) else NatToString(i)
  }

  /** Reading `String(i)` back. */
  function ParseInt(s: string): int
    requires forall k :: 0 <= k < |s| ==> IsDigit(s[k]) || (k == 0 && s[k] == '-')
  {
    if s != [] && s[0] == '-' then -(DigitsValue(s[1..]) as int) else DigitsValue(s)
  }

  /** Different integers print differently. */
  lemma IntToStringRoundTrip(i: int)
    ensures ParseInt(IntToString(i)) == i
  {
    if i < 0 {
      NatToStringRoundTrip(-i);
      assert IntToString(i)[1..] == NatToString(-i);
    } else {
      NatToStringRoundTrip(i);
    }
  }
}
