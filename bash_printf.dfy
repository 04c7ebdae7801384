/**
 * How many terminal columns a bash `printf` format prints when it is
 * given no arguments, for the constructs the generated option lines use:
 * `\UXXXX` prints one character, `\n` ends the line, `${NAME}` expands to
 * one of the style escape sequences (which the terminal does not print),
 * `%Ns` and `%-Ns` print N spaces for the missing argument, and every
 * other character prints itself. Other escapes and conversions are not
 * modelled: for them the count is None.
 */
module BashPrintf {
  import opened Wrappers
  import opened Text

  predicate IsHex(c: char) {
    '0' <= c <= '9' || 'a' <= c <= 'f' || 'A' <= c <= 'F'
  }

  predicate IsNameChar(c: char) {
    'a' <= c <= 'z' || 'A' <= c <= 'Z' || '0' <= c <= '9' || c == '_'
  }

  /** A character that prints itself: not an escape, expansion, conversion or quote. */
  predicate IsPlain(c: char) {
    c != '\\' && c != '$' && c != '%' && c != '"' && c != '`'
  }

  predicate AllPlain(s: string) {
    forall i :: 0 <= i < |s| ==> IsPlain(s[i])
  }

  /** The number of leading hexadecimal digits `\U` consumes, at most 8. */
  function HexRun(s: string): (r: nat)
    ensures r <= |s| && r <= 8
  {
    if s == [] || !IsHex(s[0]) then 0
    else if HexRun(s[1..]) == 8 then 8
    else 1 + HexRun(s[1..])
  }

  /** The number of leading decimal digits. */
  function DigitRun(s: string): (r: nat)
    ensures r <= |s|
  {
    if s == [] || !IsDigit(s[0]) then 0 else 1 + DigitRun(s[1..])
  }

  /** What DigitRun counts are digits, and the character after them is not one. */
  lemma {:induction false} DigitRunDigits(s: string)
    ensures AllDigits(s[..DigitRun(s)])
    ensures DigitRun(s) < |s| ==> !IsDigit(s[DigitRun(s)])
    decreases |s|
  {
    if s != [] && IsDigit(s[0]) {
      DigitRunDigits(s[1..]);
      assert s[..DigitRun(s)] == [s[0]] + s[1..][..DigitRun(s[1..])];
    }
  }

  /** The number of leading characters that may form a variable name. */
  function NameRun(s: string): (r: nat)
    ensures r <= |s|
  {
    if s == [] || !IsNameChar(s[0]) then 0 else 1 + NameRun(s[1..])
  }

  function Plus(n: nat, m: Maybe<nat>): Maybe<nat> {
    if m.Some? then Some(n + m.value) else None
  }

  /** The columns `printf f` prints, or None where `f` uses a construct outside the model. */
  function Columns(f: string): Maybe<nat>
    decreases |f|
  {
    if f == [] then Some(0)
    else if f[0] == '\\' then
      if |f| >= 2 && f[1] == 'n' then Columns(f[2..])
      else if |f| >= 2 && f[1] == 'U' && HexRun(f[2..]) > 0 then Plus(1, Columns(f[2 + HexRun(f[2..])..]))
      else None
    else if f[0] == '$' then
      if |f| >= 2 && f[1] == '{' && 0 < NameRun(f[2..]) && 2 + NameRun(f[2..]) < |f| && f[2 + NameRun(f[2..])] == '}'
      then Columns(f[3 + NameRun(f[2..])..])
      else None
    else if f[0] == '%' then
      var j := if |f| >= 2 && f[1] == '-' then 2 else 1;
      var d := DigitRun(f[j..]);
      DigitRunDigits(f[j..]);
      if 0 < d && j + d < |f| && f[j + d] == 's' then
        assert f[j..][..d] == f[j..j + d];
        Plus(DigitsValue(f[j..j + d]), Columns(f[j + d + 1..]))
      else None
    else if f[0] == '"' || f[0] == '`' then None
    else Plus(1, Columns(f[1..]))
  }

  /** Plain text prints one column per character. */
  lemma {:induction false} ColumnsPlain(s: string, rest: string)
    requires AllPlain(s)
    ensures Columns(s + rest) == Plus(|s|, Columns(rest))
    decreases |s|
  {
    if s != [] {
      assert (s + rest)[0] == s[0];
      assert (s + rest)[1..] == s[1..] + rest;
      ColumnsPlain(s[1..], rest);
    } else {
      assert s + rest == rest;
    }
  }

  /** `\U2502` (the box side) prints one column when no hexadecimal digit follows it. */
  lemma ColumnsBoxSide(rest: string)
    requires rest == [] || !IsHex(rest[0])
    ensures Columns("\\U2502" + rest) == Plus(1, Columns(rest))
  {
    var f := "\\U2502" + rest;
    assert f[0] == '\\' && f[1] == 'U';
    assert f[2..] == "2502" + rest;
    HexRunOfCodePoint(rest);
    assert f[6..] == rest;
  }

  lemma HexRunOfCodePoint(rest: string)
    requires rest == [] || !IsHex(rest[0])
    ensures HexRun("2502" + rest) == 4
  {
    assert ("2" + rest)[1..] == rest;
    assert HexRun("2" + rest) == 1;
    assert ("02" + rest)[1..] == "2" + rest;
    assert HexRun("02" + rest) == 2;
    assert ("502" + rest)[1..] == "02" + rest;
    assert HexRun("502" + rest) == 3;
    assert ("2502" + rest)[1..] == "502" + rest;
  }

  /** `${NAME}` prints nothing. */
  lemma ColumnsStyle(name: string, rest: string)
    requires |name| > 0 && forall i :: 0 <= i < |name| ==> IsNameChar(name[i])
    ensures Columns("${" + name + "}" + rest) == Columns(rest)
  {
    var f := "${" + name + "}" + rest;
    NameRunOfName(name, "}" + rest);
    assert f[2..] == name + ("}" + rest);
    assert f[2 + |name|] == '}';
    assert f[3 + |name|..] == rest;
  }

  lemma {:induction false} NameRunOfName(name: string, rest: string)
    requires forall i :: 0 <= i < |name| ==> IsNameChar(name[i])
    requires rest != [] && !IsNameChar(rest[0])
    ensures NameRun(name + rest) == |name|
    decreases |name|
  {
    if name == [] {
      assert name + rest == rest;
    } else {
      assert (name + rest)[1..] == name[1..] + rest;
      NameRunOfName(name[1..], rest);
    }
  }

  /** `%Ns`, with N the decimal rendering of `n`, prints |n| columns whatever the sign of `n`. */
  lemma ColumnsPad(n: int, rest: string)
    ensures Columns("%" + IntToString(n) + "s" + rest) == Plus(if n < 0 then -n else n, Columns(rest))
  {
    var m: nat := if n < 0 then -n else n;
    NatToStringRoundTrip(m);
    PadRendering(n, rest);
    ColumnsConversion(if n < 0 then 2 else 1, NatToString(m), rest);
  }

  /** A negative pad renders as the `-` flag followed by the digits of its magnitude. */
  lemma PadRendering(n: int, rest: string)
    ensures "%" + IntToString(n) + "s" + rest
         == (if n < 0 then "%-" else "%") + (NatToString(if n < 0 then -n else n) + "s" + rest)
  {
    if n < 0 {
      assert IntToString(n) == "-" + NatToString(-n);
    }
  }

  /** A conversion `%Ds` or `%-Ds` with the digits D. */
  lemma ColumnsConversion(j: nat, digits: string, rest: string)
    requires j == 1 || j == 2
    requires |digits| > 0 && AllDigits(digits)
    ensures Columns((if j == 2 then "%-" else "%") + (digits + "s" + rest)) == Plus(DigitsValue(digits), Columns(rest))
  {
    var f := (if j == 2 then "%-" else "%") + (digits + "s" + rest);
    assert f[0] == '%';
    assert |f| >= 2 && (f[1] == '-' <==> j == 2) by {
      if j == 1 {
        assert f[1] == digits[0];
      }
    }
    assert f[j..] == digits + ("s" + rest);
    DigitRunOfDigits(digits, "s" + rest);
    assert f[j..j + |digits|] == digits;
    assert f[j + |digits|] == 's';
    assert f[j + |digits| + 1..] == rest;
  }

  lemma {:induction false} DigitRunOfDigits(digits: string, rest: string)
    requires AllDigits(digits)
    requires rest != [] && !IsDigit(rest[0])
    ensures DigitRun(digits + rest) == |digits|
    decreases |digits|
  {
    if digits == [] {
      assert digits + rest == rest;
      assert DigitRun(rest) == 0;
    } else {
      var s := digits + rest;
      assert s[0] == digits[0] && IsDigit(s[0]);
      assert s[1..] == digits[1..] + rest;
      DigitRunOfDigits(digits[1..], rest);
      assert DigitRun(s) == 1 + DigitRun(s[1..]);
    }
  }

  lemma ColumnsNewline()
    ensures Columns("\\n") == Some(0)
  {
    assert "\\n"[2..] == [];
  }
}
