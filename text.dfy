/**
 * Character classes, decimal numerals and the small string operations that the
 * regular expressions of both parsers are built from.
 *
 * The classes are those of Python 2's `re` on byte strings: `\s` is space, tab,
 * newline, carriage return, vertical tab and form feed; `\d` is 0-9; `.` is any
 * character but newline.
 */
module Text {
  import opened Wrappers

  predicate IsSpace(c: char) {
    c == ' ' || c == '\t' || c == '\n' || c == '\r' || c == '\U{000B}' || c == '\U{000C}'
  }

  predicate IsDigit(c: char) {
    '0' <= c <= '9'
  }

  predicate NotSpace(c: char) {
    !IsSpace(c)
  }

  predicate AllSpace(s: string) {
    forall i :: 0 <= i < |s| ==> IsSpace(s[i])
  }

  predicate AllDigits(s: string) {
    forall i :: 0 <= i < |s| ==> IsDigit(s[i])
  }

  /** What `(\S+)` matches on its own: a non-empty run without whitespace. */
  predicate IsToken(s: string) {
    |s| > 0 && forall i :: 0 <= i < |s| ==> !IsSpace(s[i])
  }

  /** What `(\d+)` matches on its own. */
  predicate IsDigits(s: string) {
    |s| > 0 && AllDigits(s)
  }

  /** What `(.+)` matches on its own, once it is known to be non-empty. */
  predicate NoNewline(s: string) {
    forall i :: 0 <= i < |s| ==> s[i] != '\n'
  }

  function DigitChar(d: nat): char
    requires d < 10
  {
    ('0' as int + d) as char
  }

  /** The value Python's `int`/`long` gives a string of decimal digits (leading zeros allowed). */
  function DigitsValue(s: string): nat
    requires AllDigits(s)
  {
    if s == [] then 0 else DigitsValue(s[..|s| - 1]) * 10 + (s[|s| - 1] as int - '0' as int)
  }

  /** Python's `str(n)` / `"%d" % n` for a natural number. */
  function NatToDigits(n: nat): (r: string)
    ensures IsDigits(r)
    ensures DigitsValue(r) == n
  {
    if n < 10 then [DigitChar(n)]
    else
      var high := NatToDigits(n / 10);
      var all := high + [DigitChar(n % 10)];
      assert all[..|all| - 1] == high;
      all
  }

  /** Python's `int(s)` restricted to an optional minus sign followed by decimal digits. */
  function ParseInt(s: string): Option<int> {
    if |s| > 0 && s[0] == '-' && IsDigits(s[1..]) then Some(-(DigitsValue(s[1..]) as int))
    else if IsDigits(s) then Some(DigitsValue(s))
    else None
  }

  /** Python's `str(i)` / `"%d" % i` for any integer; `ParseInt` reads it back. */
  function IntToString(i: int): (r: string)
    ensures ParseInt(r) == Some(i)
  {
    if i < 0 then
      var digits := NatToDigits(-i);
      var r := "-" + digits;
      assert r[1..] == digits;
      r
    else
      NatToDigits(i)
  }

  /** What is left after a greedy leading `\s*`. */
  function TrimLeft(s: string): (r: string)
    ensures |r| <= |s| && r == s[|s| - |r|..]
    ensures AllSpace(s[..|s| - |r|])
    ensures r == [] || !IsSpace(r[0])
  {
    if s != [] && IsSpace(s[0]) then
      var r := TrimLeft(s[1..]);
      assert s[..|s| - |r|] == [s[0]] + s[1..][..|s| - 1 - |r|];
      r
    else s
  }

  lemma {:induction false} TrimLeftSpaces(w: string, s: string)
    requires AllSpace(w)
    requires s == [] || !IsSpace(s[0])
    ensures TrimLeft(w + s) == s
  {
    if w != [] {
      assert (w + s)[1..] == w[1..] + s;
      TrimLeftSpaces(w[1..], s);
    }
  }

  /** The length of the longest prefix of `s` all of whose characters satisfy `p`. */
  function Span(s: string, p: char -> bool): (k: nat)
    ensures k <= |s|
  {
    if s != [] && p(s[0]) then 1 + Span(s[1..], p) else 0
  }

  /** Every character of the span satisfies `p`, and the next one does not. */
  lemma {:induction false} SpanBounds(s: string, p: char -> bool)
    ensures forall i :: 0 <= i < Span(s, p) ==> p(s[i])
    ensures Span(s, p) == |s| || !p(s[Span(s, p)])
    decreases |s|
  {
    if s != [] && p(s[0]) {
      SpanBounds(s[1..], p);
      assert forall i :: 1 <= i < |s| ==> s[i] == s[1..][i - 1];
    }
  }

  lemma {:induction false} SpanOfConcat(a: string, b: string, p: char -> bool)
    requires forall i :: 0 <= i < |a| ==> p(a[i])
    requires b == [] || !p(b[0])
    ensures Span(a + b, p) == |a|
  {
    if a == [] {
      assert a + b == b;
    } else {
      assert (a + b)[0] == a[0];
      assert (a + b)[1..] == a[1..] + b;
      SpanOfConcat(a[1..], b, p);
    }
  }

  /** `Some(rest)` when `s` is `p + rest`. */
  function StripPrefix(p: string, s: string): (r: Option<string>)
    ensures r.Some? <==> |p| <= |s| && s[..|p|] == p
    ensures r.Some? ==> s == p + r.value
  {
    if |p| <= |s| && s[..|p|] == p then Some(s[|p|..]) else None
  }

  lemma StripPrefixConcat(p: string, s: string)
    ensures StripPrefix(p, p + s) == Some(s)
  {
    assert (p + s)[..|p|] == p;
    assert (p + s)[|p|..] == s;
  }

  /**
   * The text a pattern ending in `\n$` has to match, its last element being
   * one that cannot match a newline: Python's `$` matches at the very end and
   * also just before a final newline, so the line is that text followed by
   * "\n" or by "\n\n".
   */
  function Body(line: string): (b: Option<string>)
    ensures b.Some? <==> |line| > 0 && line[|line| - 1] == '\n'
    ensures b.Some? ==> line == b.value + "\n" || line == b.value + "\n\n"
  {
    if |line| >= 2 && line[|line| - 2..] == "\n\n" then Some(line[..|line| - 2])
    else if |line| >= 1 && line[|line| - 1] == '\n' then Some(line[..|line| - 1])
    else None
  }

  lemma BodyOfLine(s: string)
    requires s == [] || s[|s| - 1] != '\n'
    ensures Body(s + "\n") == Some(s)
  {
    var line := s + "\n";
    if |line| >= 2 {
      assert line[|line| - 2] == s[|s| - 1];
    }
    assert line[..|line| - 1] == s;
  }
}
