/** The JavaScript string and number coercions the forms and handlers rely on:
    `String.prototype.trim`, `parseInt` without a radix, the `Number` conversion that a
    comparison such as `value < 1` applies to a string (ECMA-262 section 7.1.4.1.1,
    StringToNumber), and the decimal rendering of a whole number used to build ids. */
module JsValues {
  import opened Seqs

  /** StrWhiteSpaceChar of ECMA-262: the WhiteSpace code points (tab, vertical tab, form feed,
      the byte order mark and every space separator) and the LineTerminator code points. */
  predicate IsWhiteSpace(c: char) {
    || c == '\t' || c == '\n' || c == '\U{000B}' || c == '\U{000C}' || c == '\r' || c == ' '
    || c == '\U{00A0}' || c == '\U{1680}' || ('\U{2000}' <= c <= '\U{200A}')
    || c == '\U{2028}' || c == '\U{2029}' || c == '\U{202F}' || c == '\U{205F}'
    || c == '\U{3000}' || c == '\U{FEFF}'
  }

  /** `s` without its leading white space. */
  function TrimStart(s: string): (r: string)
    ensures |r| <= |s| && r == s[|s| - |r|..]
    ensures forall i | 0 <= i < |s| - |r| :: IsWhiteSpace(s[i])
    ensures r != [] ==> !IsWhiteSpace(r[0])
  {
    if s != [] && IsWhiteSpace(s[0]) then TrimStart(s[1..]) else s
  }

  /** `s` without its trailing white space. */
  function TrimEnd(s: string): (r: string)
    ensures |r| <= |s| && r == s[..|r|]
    ensures forall i | |r| <= i < |s| :: IsWhiteSpace(s[i])
    ensures r != [] ==> !IsWhiteSpace(r[|r| - 1])
  {
    if s != [] && IsWhiteSpace(s[|s| - 1]) then TrimEnd(s[..|s| - 1]) else s
  }

  /** `s.trim()`. */
  function Trim(s: string): string {
    TrimEnd(TrimStart(s))
  }

  /** `!s.trim()`: every character of `s` is white space. */
  predicate IsBlank(s: string) {
    s == [] || (IsWhiteSpace(s[0]) && IsBlank(s[1..]))
  }

  /** A string is blank exactly when nothing is left of it once its leading white space is
      gone, and so exactly when `trim` leaves nothing of it. */
  lemma {:induction false} BlankIffTrimmedEmpty(s: string)
    ensures IsBlank(s) <==> TrimStart(s) == []
    ensures IsBlank(s) <==> Trim(s) == []
  {
    if s != [] {
      BlankIffTrimmedEmpty(s[1..]);
    }
  }

  /** The value of a digit in bases up to 36; 36 for a character that is no digit at all. */
  function DigitValue(c: char): (d: nat)
    ensures d <= 36
  {
    if '0' <= c <= '9' then c as int - '0' as int
    else if 'a' <= c <= 'z' then c as int - 'a' as int + 10
    else if 'A' <= c <= 'Z' then c as int - 'A' as int + 10
    else 36
  }

  predicate IsDigit(c: char, radix: nat) {
    DigitValue(c) < radix
  }

  predicate AllDigits(s: string, radix: nat) {
    forall i | 0 <= i < |s| :: IsDigit(s[i], radix)
  }

  /** The number a string of digits denotes in the given base, most significant digit first. */
  function DigitsValue(s: string, radix: nat): nat {
    if s == [] then 0 else DigitsValue(s[..|s| - 1], radix) * radix + DigitValue(s[|s| - 1])
  }

  /** The length of the longest prefix of `s` made of digits of the given base. */
  function DigitRun(s: string, radix: nat): (n: nat)
    ensures n <= |s|
    ensures AllDigits(s[..n], radix)
    ensures n < |s| ==> !IsDigit(s[n], radix)
  {
    if s != [] && IsDigit(s[0], radix) then
      var n := 1 + DigitRun(s[1..], radix);
      assert forall i | 1 <= i < n :: s[..n][i] == s[1..][..n - 1][i - 1];
      n
    else 0
  }

  lemma {:induction false} DigitRunOfDigits(s: string, radix: nat)
    requires AllDigits(s, radix)
    ensures DigitRun(s, radix) == |s|
  {
    if s != [] {
      DigitRunOfDigits(s[1..], radix);
    }
  }

  /** `parseInt(s)` with no radix argument: leading white space and one sign are skipped, a
      `0x` or `0X` prefix selects base 16, and the longest run of digits that follows is read.
      `None` stands for NaN, the result when no digit follows. */
  function ParseInt(s: string): (r: Option<int>)
    ensures r.Some? ==> TrimStart(s) != []
    ensures r.Some? && r.value < 0 ==> TrimStart(s)[0] == '-'
    ensures var t := TrimStart(s);
      t != [] && '0' <= t[0] <= '9' && !(|t| >= 2 && t[0] == '0' && (t[1] == 'x' || t[1] == 'X')) ==>
        r.Some? && r.value >= 0
  {
    ParseSigned(TrimStart(s))
  }

  /** `parseInt` after the leading white space: one optional sign, then the magnitude. */
  function ParseSigned(t: string): (r: Option<int>)
    ensures r.Some? ==> t != []
    ensures r.Some? && r.value < 0 ==> t[0] == '-'
    ensures t != [] && '0' <= t[0] <= '9' && !(|t| >= 2 && t[0] == '0' && (t[1] == 'x' || t[1] == 'X')) ==>
      r.Some? && r.value >= 0
  {
    var negative := t != [] && t[0] == '-';
    var u := if t != [] && (t[0] == '-' || t[0] == '+') then t[1..] else t;
    match ParseMagnitude(u)
    case None => None
    case Some(m) => Some(if negative then -(m as int) else m)
  }

  /** The magnitude `parseInt` reads after the sign: hexadecimal after `0x` or `0X`, decimal
      otherwise, as many digits as there are; `None` when there is none. */
  function ParseMagnitude(u: string): Option<nat> {
    var hex := |u| >= 2 && u[0] == '0' && (u[1] == 'x' || u[1] == 'X');
    var radix := if hex then 16 else 10;
    var w := if hex then u[2..] else u;
    var n := DigitRun(w, radix);
    if n == 0 then None else Some(DigitsValue(w[..n], radix))
  }

  /** A blank string, empty or not, reads as NaN. */
  lemma BlankParsesToNaN(s: string)
    requires IsBlank(s)
    ensures ParseInt(s).None?
  {
    BlankIffTrimmedEmpty(s);
  }

  function DigitChar(d: nat): (c: char)
    requires d < 10
    ensures IsDigit(c, 10) && DigitValue(c) == d
  {
    ('0' as int + d) as char
  }

  /** `String(n)` for a whole number: its decimal digits, without leading zeros. */
  function NatToString(n: nat): (s: string)
    ensures |s| >= 1 && AllDigits(s, 10)
    ensures |s| > 1 ==> s[0] != '0'
  {
    if n < 10 then [DigitChar(n)] else NatToString(n / 10) + [DigitChar(n % 10)]
  }

  lemma {:induction false} NatToStringValue(n: nat)
    ensures DigitsValue(NatToString(n), 10) == n
  {
    var s := NatToString(n);
    if n >= 10 {
      assert s[..|s| - 1] == NatToString(n / 10);
      NatToStringValue(n / 10);
    }
  }

  /** A string that does not start with white space is its own `TrimStart`. */
  lemma TrimStartOfUnpadded(t: string)
    requires t != [] && !IsWhiteSpace(t[0])
    ensures TrimStart(t) == t
  {
  }

  /** `parseInt` of a string that does not start with white space reads its sign and digits. */
  lemma ParseIntOfUnpadded(t: string)
    requires t != [] && !IsWhiteSpace(t[0])
    ensures ParseInt(t) == ParseSigned(t)
  {
    TrimStartOfUnpadded(t);
  }

  /** Without a sign, `parseInt` gives the magnitude it reads. */
  lemma UnsignedMagnitude(t: string)
    requires t != [] && t[0] != '-' && t[0] != '+'
    ensures ParseSigned(t) == ParseMagnitude(t)
  {
  }

  /** After a minus sign, `parseInt` negates the magnitude it reads. */
  lemma NegatedMagnitude(t: string, v: nat)
    requires t != [] && t[0] == '-' && ParseMagnitude(t[1..]) == Some(v)
    ensures ParseSigned(t) == Some(-(v as int))
  {
  }

  /** `parseInt` of a minus sign and `u` is the negated magnitude read from `u`. */
  lemma ParseIntAfterMinus(u: string, v: nat)
    requires ParseMagnitude(u) == Some(v)
    ensures ParseInt("-" + u) == Some(-(v as int))
  {
    var t := "-" + u;
    assert t[0] == '-' && t[1..] == u;
    NegatedMagnitude(t, v);
    ParseIntOfUnpadded(t);
  }

  /** A run of decimal digits, leading zeros included, is read whole, as its value; it can
      hold no `x`, so it never selects base 16. */
  lemma MagnitudeOfDecimal(u: string)
    requires |u| >= 1 && AllDigits(u, 10)
    ensures ParseMagnitude(u) == Some(DigitsValue(u, 10))
  {
    DigitRunOfDigits(u, 10);
    assert u[..|u|] == u;
  }

  /** The digits `NatToString` writes are read back whole. */
  lemma NatToStringMagnitude(n: nat)
    ensures ParseMagnitude(NatToString(n)) == Some(n)
  {
    MagnitudeOfDecimal(NatToString(n));
    NatToStringValue(n);
  }

  /** A decimal digit is neither white space nor a sign. */
  lemma DigitIsNoMark(c: char)
    requires IsDigit(c, 10)
    ensures !IsWhiteSpace(c) && c != '-' && c != '+'
  {
  }

  /** `parseInt` reads back exactly the number `NatToString` wrote. */
  lemma ParseIntNatToString(n: nat)
    ensures ParseInt(NatToString(n)) == Some(n)
  {
    var s := NatToString(n);
    NatToStringMagnitude(n);
    DigitIsNoMark(s[0]);
    ParseIntOfUnpadded(s);
    UnsignedMagnitude(s);
  }

  /** `parseInt` reads a minus sign followed by the digits of `n` as `-n`. */
  lemma ParseIntNegated(n: nat)
    ensures ParseInt("-" + NatToString(n)).Some?
    ensures ParseInt("-" + NatToString(n)).value == -(n as int)
  {
    NatToStringMagnitude(n);
    ParseIntAfterMinus(NatToString(n), n);
  }

  /** `String(i)` for an integer: a minus sign before the digits of a negative one. */
  function IntToString(i: int): (s: string)
    ensures |s| >= 1
    ensures i < 0 <==> s[0] == '-'
  {
    if i < 0 then "-" + NatToString(-i) else NatToString(i)
  }

  /** `parseInt` reads back exactly the integer `String` wrote, negative or not. */
  lemma ParseIntIntToString(i: int)
    ensures ParseInt(IntToString(i)) == Some(i)
  {
    if i < 0 {
      ParseIntNegated(-i);
    } else {
      ParseIntNatToString(i);
    }
  }

  /** Different numbers are written differently. */
  lemma NatToStringInjective(m: nat, n: nat)
    requires NatToString(m) == NatToString(n)
    ensures m == n
  {
    ParseIntNatToString(m);
    ParseIntNatToString(n);
  }

  /** A JavaScript number value; rounding to double precision is not modelled. */
  datatype Num = NaN | Finite(value: real) | Infinity(negative: bool)

  function Pow10(e: nat): (r: nat)
    ensures r >= 1
  {
    if e == 0 then 1 else 10 * Pow10(e - 1)
  }

  /** `m` times ten to the power `e`. */
  function Scale(m: real, e: int): real {
    if e >= 0 then m * Pow10(e) as real else m / Pow10(-e) as real
  }

  /** The exponent part of a decimal literal, `e` or `E`, an optional sign and at least one digit;
      the empty string is exponent zero; `None` when `s` is neither. */
  function Exponent(s: string): Option<int> {
    if s == [] then Some(0)
    else if s[0] != 'e' && s[0] != 'E' then None
    else
      var v := s[1..];
      var negative := v != [] && v[0] == '-';
      var d := if v != [] && (v[0] == '-' || v[0] == '+') then v[1..] else v;
      var magnitude: int := DigitsValue(d, 10);
      if d == [] || !AllDigits(d, 10) then None else Some(if negative then -magnitude else magnitude)
  }

  /** StrUnsignedDecimalLiteral: `Infinity`, or digits with an optional fraction and exponent
      where at least one digit comes before the exponent. */
  function UnsignedDecimal(u: string): Num {
    if u == "Infinity" then Infinity(false)
    else
      var i := DigitRun(u, 10);
      var rest := u[i..];
      var point := rest != [] && rest[0] == '.';
      var afterPoint := if point then rest[1..] else rest;
      var f := if point then DigitRun(afterPoint, 10) else 0;
      if i == 0 && f == 0 then NaN
      else match Exponent(afterPoint[f..])
        case None => NaN
        case Some(e) => Finite(Scale(DigitsValue(u[..i] + afterPoint[..f], 10) as real / Pow10(f) as real, e))
  }

  /** StrNumericLiteral for a trimmed, non-empty string: a `0x`, `0o` or `0b` integer, or a
      signed decimal literal; NaN for anything else. */
  function NumericLiteral(t: string): Num
    requires t != []
  {
    if |t| >= 2 && t[0] == '0' && t[1] in "xXoObB" then
      var radix := if t[1] in "xX" then 16 else if t[1] in "oO" then 8 else 2;
      if |t| > 2 && AllDigits(t[2..], radix) then Finite(DigitsValue(t[2..], radix) as real) else NaN
    else
      var negative := t[0] == '-';
      var u := if t[0] == '-' || t[0] == '+' then t[1..] else t;
      match UnsignedDecimal(u)
      case NaN => NaN
      case Finite(v) => Finite(if negative then -v else v)
      case Infinity(_) => Infinity(negative)
  }

  /** `Number(s)`: white space around the literal is ignored and a blank string is zero. */
  function ToNumber(s: string): (r: Num)
    ensures IsBlank(s) ==> r == Finite(0.0)
  {
    BlankIffTrimmedEmpty(s);
    var t := Trim(s);
    if t == [] then Finite(0.0) else NumericLiteral(t)
  }

  /** `x < y` for a number `x` and a finite `y`; every comparison with NaN is false. */
  predicate LessThan(x: Num, y: real) {
    match x
    case NaN => false
    case Finite(v) => v < y
    case Infinity(negative) => negative
  }

  /** `x > y` for a number `x` and a finite `y`. */
  predicate GreaterThan(x: Num, y: real) {
    match x
    case NaN => false
    case Finite(v) => v > y
    case Infinity(negative) => !negative
  }
}
