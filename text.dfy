/**
 * The string operations of Python that the translator and the error
 * formatter use, restricted to ASCII: `lower`, `upper`, `capitalize`,
 * `join`, `ljust`, `split`, `replace` and the decimal rendering of an `int`
 * inside an f-string.
 */
module Text {

  function LowerChar(c: char): char {
    if 'A' <= c <= 'Z' then (c as int + 32) as char else c
  }

  function UpperChar(c: char): char {
    if 'a' <= c <= 'z' then (c as int - 32) as char else c
  }

  /** `s.lower()` on ASCII text. */
  function Lower(s: string): (r: string)
    ensures |r| == |s|
    ensures forall i :: 0 <= i < |s| ==> r[i] == LowerChar(s[i])
  {
    seq(|s|, i requires 0 <= i < |s| => LowerChar(s[i]))
  }

  /** `s.upper()` on ASCII text. */
  function Upper(s: string): (r: string)
    ensures |r| == |s|
    ensures forall i :: 0 <= i < |s| ==> r[i] == UpperChar(s[i])
  {
    seq(|s|, i requires 0 <= i < |s| => UpperChar(s[i]))
  }

  /** `s.capitalize()` on ASCII text: the first character upper-cased, every other one lower-cased. */
  function Capitalize(s: string): (r: string)
    ensures |r| == |s|
    ensures s != [] ==> r[0] == UpperChar(s[0]) && r[1..] == Lower(s[1..])
  {
    if s == [] then [] else [UpperChar(s[0])] + Lower(s[1..])
  }

  lemma CapitalizeIdempotent(s: string)
    ensures Capitalize(Capitalize(s)) == Capitalize(s)
  {
    if s != [] {
      var c := Capitalize(s);
      assert c[1..] == Lower(s[1..]);
      assert Lower(c[1..]) == c[1..];
    }
  }

  lemma LowerAppend(s: string, t: string)
    ensures Lower(s + t) == Lower(s) + Lower(t)
  {
    assert forall i :: 0 <= i < |s + t| ==> Lower(s + t)[i] == (Lower(s) + Lower(t))[i];
  }

  lemma CapitalizeAppend(s: string, t: string)
    requires s != []
    ensures Capitalize(s + t) == Capitalize(s) + Lower(t)
  {
    assert (s + t)[1..] == s[1..] + t;
    LowerAppend(s[1..], t);
  }

  /** `sep.join(parts)`. */
  function Join(sep: string, parts: seq<string>): string
    decreases |parts|
  {
    if |parts| == 0 then []
    else if |parts| == 1 then parts[0]
    else parts[0] + sep + Join(sep, parts[1..])
  }

  function Spaces(n: nat): (r: string)
    ensures |r| == n && forall i :: 0 <= i < n ==> r[i] == ' '
  {
    seq(n, _ => ' ')
  }

  /** `s.ljust(width)`: `s` followed by spaces up to `width` characters, or `s` itself when already that long. */
  function LJust(s: string, width: int): (r: string)
    ensures |r| == if |s| < width then width else |s|
    ensures r[..|s|] == s
    ensures forall i :: |s| <= i < |r| ==> r[i] == ' '
  {
    if |s| < width then s + Spaces(width - |s|) else s
  }

  // ---------------------------------------------------------------------------
  // Decimal rendering of integers, as an f-string renders an `int`.

  predicate IsDigit(c: char) {
    '0' <= c <= '9'
  }

  predicate AllDigits(s: string) {
    forall i :: 0 <= i < |s| ==> IsDigit(s[i])
  }

  function DigitChar(d: nat): (c: char)
    requires d < 10
    ensures IsDigit(c)
  {
    (d + '0' as int) as char
  }

  function DigitValue(c: char): (d: nat)
    requires IsDigit(c)
    ensures d < 10
  {
    c as int - '0' as int
  }

  /** The decimal digits of `n`, most significant first, without leading zeros. */
  function NatToString(n: nat): (r: string)
    ensures |r| > 0 && AllDigits(r)
    decreases n
  {
    if n < 10 then [DigitChar(n)] else NatToString(n / 10) + [DigitChar(n % 10)]
  }

  /** `f"{i}"` for an `int`: a minus sign for a negative value, then the digits of its magnitude. */
  function IntToString(i: int): string {
    if i < 0 then "-" + NatToString(-i) else NatToString(i)
  }

  /** The number a string of decimal digits denotes: the inverse of NatToString. */
  function DigitsValue(s: string): nat
    requires AllDigits(s)
  {
    if s == [] then 0 else 10 * DigitsValue(s[..|s| - 1]) + DigitValue(s[|s| - 1])
  }

  lemma {:induction false} NatToStringRoundTrip(n: nat)
    ensures DigitsValue(NatToString(n)) == n
    decreases n
  {
    var r := NatToString(n);
    if n < 10 {
      assert r[..|r| - 1] == [];
    } else {
      NatToStringRoundTrip(n / 10);
      assert r[..|r| - 1] == NatToString(n / 10);
    }
  }

  // ---------------------------------------------------------------------------
  // `s.split(sep)` for a one-character separator.

  function Split(s: string, sep: char): (r: seq<string>)
    ensures |r| > 0
  {
    if s == [] then [[]]
    else if s[0] == sep then [[]] + Split(s[1..], sep)
    else
      var rest := Split(s[1..], sep);
      [[s[0]] + rest[0]] + rest[1..]
  }

  predicate Free(s: string, sep: char) {
    sep !in s
  }

  /** No line holds the separator. */
  predicate AllFree(lines: seq<string>, sep: char) {
    forall k :: 0 <= k < |lines| ==> Free(lines[k], sep)
  }

  lemma AllFreeConcat(a: seq<string>, b: seq<string>, sep: char)
    requires AllFree(a, sep) && AllFree(b, sep)
    ensures AllFree(a + b, sep)
  {
    forall k | 0 <= k < |a + b|
      ensures Free((a + b)[k], sep)
    {
      if k >= |a| {
        assert (a + b)[k] == b[k - |a|];
      }
    }
  }

  lemma {:induction false} SplitAfterFreePrefix(x: string, t: string, sep: char)
    requires Free(x, sep)
    ensures Split(x + t, sep) == [x + Split(t, sep)[0]] + Split(t, sep)[1..]
    decreases |x|
  {
    var st := Split(t, sep);
    if x == [] {
      assert x + t == t && x + st[0] == st[0];
      assert [st[0]] + st[1..] == st;
    } else {
      assert (x + t)[0] == x[0] && (x + t)[1..] == x[1..] + t;
      SplitAfterFreePrefix(x[1..], t, sep);
      var rest := Split(x[1..] + t, sep);
      assert rest[0] == x[1..] + st[0] && rest[1..] == st[1..];
      assert [x[0]] + (x[1..] + st[0]) == x + st[0];
    }
  }

  /** Splitting lines joined by a separator they do not contain gives the lines back. */
  lemma {:induction false} SplitJoin(lines: seq<string>, sep: char)
    requires |lines| > 0 && AllFree(lines, sep)
    ensures Split(Join([sep], lines), sep) == lines
    decreases |lines|
  {
    if |lines| == 1 {
      SplitAfterFreePrefix(lines[0], [], sep);
      assert lines[0] + [] == lines[0] && Split([], sep) == [[]];
      assert lines == [lines[0]];
    } else {
      var rest := Join([sep], lines[1..]);
      assert Join([sep], lines) == lines[0] + ([sep] + rest);
      SplitAfterFreePrefix(lines[0], [sep] + rest, sep);
      assert ([sep] + rest)[0] == sep && ([sep] + rest)[1..] == rest;
      SplitJoin(lines[1..], sep);
      assert Split([sep] + rest, sep) == [[]] + lines[1..];
      assert lines[0] + [] == lines[0];
      assert [lines[0]] + lines[1..] == lines;
    }
  }

  // ---------------------------------------------------------------------------
  // `s.replace('.,', ',')`: every non-overlapping ".," scanned from the left becomes ",".

  function ReplaceDotComma(s: string): string
    decreases |s|
  {
    if |s| >= 2 && s[0] == '.' && s[1] == ',' then "," + ReplaceDotComma(s[2..])
    else if s == [] then []
    else [s[0]] + ReplaceDotComma(s[1..])
  }

  predicate NoDotComma(s: string) {
    forall i :: 0 <= i < |s| - 1 ==> !(s[i] == '.' && s[i + 1] == ',')
  }

  lemma {:induction false} ReplaceDotCommaIdentity(s: string)
    requires NoDotComma(s)
    ensures ReplaceDotComma(s) == s
    decreases |s|
  {
    if s != [] {
      assert NoDotComma(s[1..]) by {
        forall i | 0 <= i < |s[1..]| - 1
          ensures !(s[1..][i] == '.' && s[1..][i + 1] == ',')
        {
          assert s[1..][i] == s[i + 1] && s[1..][i + 1] == s[i + 2];
        }
      }
      ReplaceDotCommaIdentity(s[1..]);
    }
  }
}
