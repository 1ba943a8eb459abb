/**
 * The Python `str` built-ins the briefing pipeline relies on: `strip()`, `splitlines()`,
 * `startswith()`, `title()`, `replace()`, slicing `s[:n]`, `sep.join(parts)`, `str(int)`
 * and the ordering `<=` on strings.
 */
module Text {

  // ---------------------------------------------------------------------------
  // Whitespace and str.strip()
  // ---------------------------------------------------------------------------

  /** The characters for which Python's `str.isspace()` holds. */
  predicate IsSpace(c: char) {
    c == ' ' || c == '\t' || c == '\n' || c == '\r' || c == '\U{0B}' || c == '\U{0C}' ||
    c == '\U{1C}' || c == '\U{1D}' || c == '\U{1E}' || c == '\U{1F}' || c == '\U{85}' ||
    c == '\U{A0}' || c == '\U{1680}' || ('\U{2000}' <= c <= '\U{200A}') ||
    c == '\U{2028}' || c == '\U{2029}' || c == '\U{202F}' || c == '\U{205F}' || c == '\U{3000}'
  }

  predicate AllSpace(s: string) {
    forall i :: 0 <= i < |s| ==> IsSpace(s[i])
  }

  /** `s.lstrip()`: the suffix of `s` left after dropping leading whitespace. */
  function StripLeft(s: string): (r: string)
    ensures |r| <= |s| && r == s[|s| - |r|..]
    ensures AllSpace(s[..|s| - |r|])
    ensures r == [] || !IsSpace(r[0])
    decreases |s|
  {
    if s != [] && IsSpace(s[0]) then
      var r := StripLeft(s[1..]);
      assert s[..|s| - |r|] == [s[0]] + s[1..][..|s| - 1 - |r|];
      r
    else s
  }

  /** `s.rstrip()`: the prefix of `s` left after dropping trailing whitespace. */
  function StripRight(s: string): (r: string)
    ensures |r| <= |s| && r == s[..|r|]
    ensures AllSpace(s[|r|..])
    ensures r == [] || !IsSpace(r[|r| - 1])
    decreases |s|
  {
    if s != [] && IsSpace(s[|s| - 1]) then
      var p := s[..|s| - 1];
      var r := StripRight(p);
      assert s[|r|..] == p[|r|..] + [s[|s| - 1]];
      r
    else s
  }

  /** `s.strip()`: `s` with its leading and trailing whitespace removed. */
  function Strip(s: string): (r: string)
    ensures |r| <= |s|
    ensures r == [] || (!IsSpace(r[0]) && !IsSpace(r[|r| - 1]))
  {
    StripRight(StripLeft(s))
  }

  /** The number of leading whitespace characters of `s`. */
  function Lead(s: string): nat {
    |s| - |StripLeft(s)|
  }

  /** The stripped text is the slice of `s` between its leading and its trailing whitespace. */
  lemma StripSlice(s: string)
    ensures Lead(s) + |Strip(s)| <= |s|
    ensures Strip(s) == s[Lead(s)..Lead(s) + |Strip(s)|]
  {
    var l := StripLeft(s);
    var r := StripRight(l);
    SuffixSlices(s, Lead(s), |r|);
  }

  /** What surrounds the stripped text is whitespace only. */
  lemma StripSurround(s: string)
    ensures Lead(s) + |Strip(s)| <= |s|
    ensures AllSpace(s[..Lead(s)]) && AllSpace(s[Lead(s) + |Strip(s)|..])
  {
    var l := StripLeft(s);
    var r := StripRight(l);
    assert Strip(s) == r;
    assert l == s[Lead(s)..];
    assert AllSpace(l[|r|..]);
    SuffixSlices(s, Lead(s), |r|);
    assert s[Lead(s) + |r|..] == l[|r|..];
  }

  lemma SuffixSlices(s: string, k: nat, n: nat)
    requires k + n <= |s|
    ensures s[k..][n..] == s[k + n..] && s[k..][..n] == s[k..k + n]
  {
  }

  /** A string strips to nothing exactly when it is all whitespace. */
  lemma {:induction false} StripEmptyIffAllSpace(s: string)
    ensures Strip(s) == [] <==> AllSpace(s)
  {
    StripSlice(s);
    StripSurround(s);
    var k := Lead(s);
    if Strip(s) == [] {
      assert s == s[..k] + s[k..];
      AllSpaceAppend(s[..k], s[k..]);
    } else {
      assert Strip(s)[0] == s[k];
    }
  }

  lemma AllSpaceAppend(a: string, b: string)
    requires AllSpace(a) && AllSpace(b)
    ensures AllSpace(a + b)
  {
    forall i | 0 <= i < |a + b| ensures IsSpace((a + b)[i]) {
      if i >= |a| {
        assert (a + b)[i] == b[i - |a|];
      }
    }
  }

  /** Stripping twice is stripping once. */
  lemma {:induction false} StripIdempotent(s: string)
    ensures Strip(Strip(s)) == Strip(s)
  {
    var r := Strip(s);
    if r != [] {
      assert StripLeft(r) == r;
      assert StripRight(r) == r;
    }
  }

  /** A string that neither starts nor ends with whitespace is its own strip. */
  lemma StripUnchanged(s: string)
    requires s != [] && !IsSpace(s[0]) && !IsSpace(s[|s| - 1])
    ensures Strip(s) == s
  {
  }

  // ---------------------------------------------------------------------------
  // Prefixes, slicing, joining
  // ---------------------------------------------------------------------------

  /** `s.startswith(p)`. */
  predicate StartsWith(s: string, p: string) {
    |p| <= |s| && s[..|p|] == p
  }

  /** The slice `s[:n]` for a non-negative `n`: at most the first `n` characters. */
  function Prefix(s: string, n: nat): (r: string)
    ensures |r| == if |s| <= n then |s| else n
    ensures r == s[..|r|]
  {
    if |s| <= n then s else s[..n]
  }

  /** `sep.join(parts)`. */
  function Join(sep: string, parts: seq<string>): (r: string)
    ensures parts != [] ==> StartsWith(r, parts[0])
    ensures |parts| == 1 ==> r == parts[0]
  {
    if parts == [] then ""
    else if |parts| == 1 then parts[0]
    else parts[0] + sep + Join(sep, parts[1..])
  }

  /** Joining a first part in front of the rest. */
  lemma JoinCons(sep: string, p: string, m: seq<string>)
    ensures Join(sep, [p] + m) == if m == [] then p else p + sep + Join(sep, m)
  {
    assert ([p] + m)[1..] == m;
  }

  /** `s.replace(a, b)` for single characters `a` and `b`. */
  function ReplaceChar(s: string, a: char, b: char): (r: string)
    ensures |r| == |s|
    ensures forall i :: 0 <= i < |s| ==> r[i] == (if s[i] == a then b else s[i])
  {
    if s == [] then [] else [if s[0] == a then b else s[0]] + ReplaceChar(s[1..], a, b)
  }

  // ---------------------------------------------------------------------------
  // str.splitlines()
  // ---------------------------------------------------------------------------

  /** The line boundaries recognised by Python's `str.splitlines()`. */
  predicate IsLineBreak(c: char) {
    c == '\n' || c == '\r' || c == '\U{0B}' || c == '\U{0C}' || c == '\U{1C}' ||
    c == '\U{1D}' || c == '\U{1E}' || c == '\U{85}' || c == '\U{2028}' || c == '\U{2029}'
  }

  predicate NoLineBreak(s: string) {
    forall i :: 0 <= i < |s| ==> !IsLineBreak(s[i])
  }

  /** The index of the first line boundary in `s`, or `|s|` when there is none. */
  function LineEnd(s: string): (i: nat)
    ensures i <= |s|
    ensures NoLineBreak(s[..i])
    ensures i < |s| ==> IsLineBreak(s[i])
  {
    if s == [] || IsLineBreak(s[0]) then 0
    else
      var i := 1 + LineEnd(s[1..]);
      assert s[..i] == [s[0]] + s[1..][..i - 1];
      i
  }

  /**
   * `s.splitlines()`: the lines of `s` without their boundaries; "\r\n" is one
   * boundary, and a boundary at the very end does not start an extra empty line.
   */
  function SplitLines(s: string): (lines: seq<string>)
    ensures forall k :: 0 <= k < |lines| ==> NoLineBreak(lines[k])
    decreases |s|
  {
    if s == [] then []
    else
      var i := LineEnd(s);
      if i == |s| then
        assert s[..i] == s;
        [s]
      else
        var w := if s[i] == '\r' && i + 1 < |s| && s[i + 1] == '\n' then 2 else 1;
        [s[..i]] + SplitLines(s[i + w..])
  }

  lemma {:induction false} LineEndOfLine(a: string, t: string)
    requires NoLineBreak(a)
    requires t == [] || IsLineBreak(t[0])
    ensures LineEnd(a + t) == |a|
    decreases |a|
  {
    if a != [] {
      assert (a + t)[1..] == a[1..] + t;
      LineEndOfLine(a[1..], t);
    }
  }

  /**
   * Joining lines that hold no boundary with "\n" and splitting the result gives the
   * lines back, provided the last line is not empty (a trailing empty line is lost).
   */
  lemma {:induction false} SplitLinesJoin(ls: seq<string>)
    requires forall k :: 0 <= k < |ls| ==> NoLineBreak(ls[k])
    requires ls == [] || ls[|ls| - 1] != []
    ensures SplitLines(Join("\n", ls)) == ls
  {
    if ls == [] {
    } else if |ls| == 1 {
      LineEndOfLine(ls[0], []);
      assert ls[0] + [] == ls[0];
    } else {
      var a, rest := ls[0], ls[1..];
      var j := Join("\n", rest);
      var s := a + "\n" + j;
      assert Join("\n", ls) == s;
      assert s == a + ("\n" + j);
      LineEndOfLine(a, "\n" + j);
      assert s[|a|] == '\n';
      assert s[..|a|] == a;
      assert s[|a| + 1..] == j;
      SplitLinesJoin(rest);
    }
  }

  /**
   * When the last line is empty, splitting the join gives back every line but the last:
   * the join then ends in a boundary, which starts no extra line.
   */
  lemma {:induction false} SplitLinesJoinTrailing(ls: seq<string>)
    requires forall k :: 0 <= k < |ls| ==> NoLineBreak(ls[k])
    requires ls != [] && ls[|ls| - 1] == []
    ensures SplitLines(Join("\n", ls)) == ls[..|ls| - 1]
  {
    if |ls| == 1 {
      assert Join("\n", ls) == [];
    } else {
      SplitLinesJoinTrailing(ls[1..]);
      TrailingStep(ls);
    }
  }

  lemma TrailingStep(ls: seq<string>)
    requires |ls| > 1 && NoLineBreak(ls[0])
    requires SplitLines(Join("\n", ls[1..])) == ls[1..][..|ls| - 2]
    ensures SplitLines(Join("\n", ls)) == ls[..|ls| - 1]
  {
    var a, rest := ls[0], ls[1..];
    var j := Join("\n", rest);
    assert Join("\n", ls) == a + "\n" + j;
    SplitLinesAfter(a, j);
    assert ls[..|ls| - 1] == [a] + rest[..|rest| - 1];
  }

  /** A line without boundaries followed by "\n" is split off as the first line. */
  lemma SplitLinesAfter(a: string, j: string)
    requires NoLineBreak(a)
    ensures SplitLines(a + "\n" + j) == [a] + SplitLines(j)
  {
    var s := a + "\n" + j;
    assert s == a + ("\n" + j);
    LineEndOfLine(a, "\n" + j);
    assert s[|a|] == '\n';
    assert s[..|a|] == a;
    assert s[|a| + 1..] == j;
  }

  /** The first line of `a + "\n" + t` is `a` when `a` holds no line boundary. */
  lemma SplitLinesFirst(a: string, t: string)
    requires NoLineBreak(a)
    ensures SplitLines(a + "\n" + t) != [] && SplitLines(a + "\n" + t)[0] == a
  {
    var s := a + "\n" + t;
    assert s == a + ("\n" + t);
    LineEndOfLine(a, "\n" + t);
    assert s[..|a|] == a;
  }

  // ---------------------------------------------------------------------------
  // str.title() on ASCII letters
  // ---------------------------------------------------------------------------

  predicate IsUpper(c: char) { 'A' <= c <= 'Z' }
  predicate IsLower(c: char) { 'a' <= c <= 'z' }
  predicate IsCased(c: char) { IsUpper(c) || IsLower(c) }

  function ToUpper(c: char): (r: char)
    ensures IsCased(r) == IsCased(c) && !IsLower(r)
  {
    if IsLower(c) then (c as int - 32) as char else c
  }

  function ToLower(c: char): (r: char)
    ensures IsCased(r) == IsCased(c) && !IsUpper(r)
  {
    if IsUpper(c) then (c as int + 32) as char else c
  }

  /** What `title()` does to `s[i]`: lower-case after a cased character, else upper-case. */
  function TitleChar(c: char, afterCased: bool): (r: char)
    ensures IsCased(r) == IsCased(c)
  {
    if afterCased then ToLower(c) else ToUpper(c)
  }

  function TitleFrom(s: string, afterCased: bool): (r: string)
    ensures |r| == |s|
    ensures forall i :: 0 <= i < |s| ==>
      r[i] == TitleChar(s[i], if i == 0 then afterCased else IsCased(s[i - 1]))
  {
    if s == [] then [] else [TitleChar(s[0], afterCased)] + TitleFrom(s[1..], IsCased(s[0]))
  }

  /** `s.title()`: every cased character that follows an uncased one (or starts the string)
      is upper-cased, every other cased character lower-cased. */
  function Title(s: string): string {
    TitleFrom(s, false)
  }

  // ---------------------------------------------------------------------------
  // Ordering of strings
  // ---------------------------------------------------------------------------

  /** Python's `a <= b` on strings: lexicographic by code point, a prefix first. */
  predicate LexLe(a: string, b: string)
    decreases |a|
  {
    a == [] || (b != [] && (a[0] < b[0] || (a[0] == b[0] && LexLe(a[1..], b[1..]))))
  }

  lemma {:induction false} LexLeTotal(a: string, b: string)
    ensures LexLe(a, b) || LexLe(b, a)
    decreases |a|
  {
    if a != [] && b != [] && a[0] == b[0] {
      LexLeTotal(a[1..], b[1..]);
    }
  }

  lemma {:induction false} LexLeTransitive(a: string, b: string, c: string)
    requires LexLe(a, b) && LexLe(b, c)
    ensures LexLe(a, c)
    decreases |a|
  {
    if a != [] && b != [] && c != [] && a[0] == b[0] == c[0] {
      LexLeTransitive(a[1..], b[1..], c[1..]);
    }
  }

  lemma {:induction false} LexLeAntisymmetric(a: string, b: string)
    requires LexLe(a, b) && LexLe(b, a)
    ensures a == b
    decreases |a|
  {
    if a != [] {
      LexLeAntisymmetric(a[1..], b[1..]);
      assert a == [a[0]] + a[1..] && b == [b[0]] + b[1..];
    }
  }

  // ---------------------------------------------------------------------------
  // str(n) for an integer n
  // ---------------------------------------------------------------------------

  predicate IsDigit(c: char) { '0' <= c <= '9' }

  function DigitChar(d: nat): (c: char)
    requires d < 10
    ensures IsDigit(c)
  {
    ('0' as int + d) as char
  }

  /** The decimal digits of `n`, most significant first, without leading zeros. */
  function NatToString(n: nat): (r: string)
    ensures r != [] && forall i :: 0 <= i < |r| ==> IsDigit(r[i])
    ensures r[0] == '0' ==> r == "0"
  {
    if n < 10 then [DigitChar(n)] else NatToString(n / 10) + [DigitChar(n % 10)]
  }

  /** `str(n)`: an optional minus sign, then the digits of `|n|`. */
  function IntToString(n: int): (r: string) {
    if n < 0 then "-" + NatToString(-n) else NatToString(n)
  }

  /** The value of a string of decimal digits. */
  function DigitsValue(s: string): int
    requires forall i :: 0 <= i < |s| ==> IsDigit(s[i])
  {
    if s == [] then 0 else DigitsValue(s[..|s| - 1]) * 10 + (s[|s| - 1] as int - '0' as int)
  }

  /** The value of an optional minus sign followed by decimal digits. */
  function SignedValue(s: string): int
    requires s != [] && (s[0] == '-' || IsDigit(s[0]))
    requires forall i :: 1 <= i < |s| ==> IsDigit(s[i])
  {
    if s[0] == '-' then -DigitsValue(s[1..]) else DigitsValue(s)
  }

  /** `str(n)` is a sign and digits, and reading it back gives `n`, negative or not. */
  lemma IntToStringValue(n: int)
    ensures IntToString(n) != [] && (IntToString(n)[0] == '-' <==> n < 0)
    ensures forall i :: 1 <= i < |IntToString(n)| ==> IsDigit(IntToString(n)[i])
    ensures SignedValue(IntToString(n)) == n
  {
    if n < 0 {
      NatToStringValue(-n);
      assert IntToString(n)[1..] == NatToString(-n);
    } else {
      NatToStringValue(n);
    }
  }

  /** Reading back the digits printed for `n` gives `n`. */
  lemma {:induction false} NatToStringValue(n: nat)
    ensures DigitsValue(NatToString(n)) == n
  {
    if n >= 10 {
      NatToStringValue(n / 10);
      var r := NatToString(n);
      assert r[..|r| - 1] == NatToString(n / 10);
    }
  }
}
