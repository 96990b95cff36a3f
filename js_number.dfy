/**
 * The two conversions between strings and numbers that the viewer relies on:
 * the global `parseInt(string)` of ECMA-262 (section 19.2.5, called without a radix),
 * and `Number::toString` on an integral value, which is what `URLSearchParams.set`
 * applies to the page number.  A NaN result of `parseInt` is `None`.
 */
module JsNumber {
  import opened Wrappers

  /** StrWhiteSpaceChar of ECMA-262: the WhiteSpace and LineTerminator code points. */
  predicate IsStrWhiteSpace(c: char) {
    c == '\t' || c == '\U{000B}' || c == '\U{000C}' || c == ' ' || c == '\U{00A0}' || c == '\U{FEFF}'
    || c == '\U{1680}' || ('\U{2000}' <= c <= '\U{200A}') || c == '\U{202F}' || c == '\U{205F}'
    || c == '\U{3000}' || c == '\n' || c == '\r' || c == '\U{2028}' || c == '\U{2029}'
  }

  /** Step 2 of parseInt: drop leading white space. */
  function TrimStart(s: string): (r: string)
    ensures |r| <= |s| && r == s[|s| - |r|..]
    ensures r == [] || !IsStrWhiteSpace(r[0])
    ensures forall k :: 0 <= k < |s| - |r| ==> IsStrWhiteSpace(s[k])
  {
    if s != [] && IsStrWhiteSpace(s[0]) then
      var r := TrimStart(s[1..]);
      assert forall k :: 1 <= k < |s| - |r| ==> s[k] == s[1..][k - 1];
      r
    else s
  }

  /** The value of a digit character in radix 36; 36 for anything that is not a digit. */
  function DigitValue(c: char): nat {
    if '0' <= c <= '9' then (c - '0') as nat
    else if 'a' <= c <= 'z' then (c - 'a') as nat + 10
    else if 'A' <= c <= 'Z' then (c - 'A') as nat + 10
    else 36
  }

  predicate IsRadixDigit(c: char, radix: nat) {
    DigitValue(c) < radix
  }

  /** Step 11 of parseInt: the longest prefix made only of radix-R digits. */
  function DigitPrefix(s: string, radix: nat): (z: string)
    ensures |z| <= |s| && z == s[..|z|]
    ensures forall k :: 0 <= k < |z| ==> IsRadixDigit(z[k], radix)
    ensures |z| == |s| || !IsRadixDigit(s[|z|], radix)
  {
    if s != [] && IsRadixDigit(s[0], radix) then [s[0]] + DigitPrefix(s[1..], radix) else []
  }

  /** The mathematical value of a digit string, most significant digit first. */
  function DigitsValue(z: string, radix: nat): nat {
    if z == [] then 0
    else DigitsValue(z[..|z| - 1], radix) * radix + DigitValue(z[|z| - 1])
  }

  /** Steps 4 and 5 of parseInt: `-1` when the text starts with a minus sign, else `1`. */
  function SignOf(s: string): int {
    if s != [] && s[0] == '-' then -1 else 1
  }

  /** Step 6 of parseInt: drop one leading `+` or `-`. */
  function StripSign(s: string): string {
    if s != [] && (s[0] == '-' || s[0] == '+') then s[1..] else s
  }

  predicate HasHexPrefix(u: string) {
    |u| >= 2 && u[0] == '0' && (u[1] == 'x' || u[1] == 'X')
  }

  /** Steps 8 to 15 of parseInt on unsigned text: the radix, then the digit prefix. */
  function ParseUnsigned(u: string): Option<nat> {
    var radix := if HasHexPrefix(u) then 16 else 10;
    var z := DigitPrefix(if HasHexPrefix(u) then u[2..] else u, radix);
    if z == [] then None else Some(DigitsValue(z, radix))
  }

  /**
   * `parseInt(input)` with the radix left undefined: leading white space is skipped, one
   * sign is taken, a `0x`/`0X` prefix switches to radix 16, then the longest digit prefix
   * is read.  An empty digit prefix gives NaN (`None`).  Negative zero is reported as 0.
   */
  function ParseInt(input: string): Option<int> {
    var s := TrimStart(input);
    match ParseUnsigned(StripSign(s))
    case None => None
    case Some(v) => Some(SignOf(s) * v)
  }

  function DecimalDigit(d: nat): char
    requires d < 10
  {
    "0123456789"[d]
  }

  lemma DigitValueOfDecimalDigit(d: nat)
    requires d < 10
    ensures DigitValue(DecimalDigit(d)) == d
  {
  }

  /** The decimal numeral of a non-negative integer, as `Number::toString` writes it. */
  function Decimal(n: nat): (s: string)
    decreases n
  {
    if n < 10 then [DecimalDigit(n)] else Decimal(n / 10) + [DecimalDigit(n % 10)]
  }

  /** `String(n)` for an integral Number `n`. */
  function NumberToString(n: int): string {
    if n < 0 then "-" + Decimal(-n) else Decimal(n)
  }

  /** Every character of a decimal numeral is a decimal digit, and only zero starts with `0`. */
  lemma {:induction false} DecimalShape(n: nat)
    ensures |Decimal(n)| >= 1
    ensures forall k :: 0 <= k < |Decimal(n)| ==> IsRadixDigit(Decimal(n)[k], 10)
    ensures Decimal(n)[0] == '0' <==> n == 0
  {
    if n >= 10 {
      DecimalShape(n / 10);
    }
  }

  /** Reading back the digits of a numeral gives the number. */
  lemma {:induction false} DecimalValue(n: nat)
    ensures DigitsValue(Decimal(n), 10) == n
  {
    if n >= 10 {
      var s := Decimal(n);
      assert s[..|s| - 1] == Decimal(n / 10);
      assert DigitValue(s[|s| - 1]) == n % 10 by {
        assert s[|s| - 1] == DecimalDigit(n % 10);
        DigitValueOfDecimalDigit(n % 10);
      }
      DecimalValue(n / 10);
      assert n == n / 10 * 10 + n % 10;
    } else {
      DigitValueOfDecimalDigit(n);
    }
  }

  /** A string made only of radix digits is its own digit prefix. */
  lemma {:induction false} DigitPrefixOfDigits(s: string, radix: nat)
    requires forall k :: 0 <= k < |s| ==> IsRadixDigit(s[k], radix)
    ensures DigitPrefix(s, radix) == s
  {
    if s != [] {
      DigitPrefixOfDigits(s[1..], radix);
    }
  }

  /** A text that starts with a decimal digit is left alone by the white-space and sign steps. */
  lemma StartsWithDigit(s: string)
    requires s != [] && IsRadixDigit(s[0], 10)
    ensures TrimStart(s) == s && SignOf(s) == 1 && StripSign(s) == s
  {
    var c := s[0];
    assert '0' <= c <= '9';
    assert !IsStrWhiteSpace(c);
  }

  /** The digit prefix of a numeral is the whole numeral, and it reads back as the number. */
  lemma ParseUnsignedDecimal(n: nat)
    ensures ParseUnsigned(Decimal(n)) == Some(n)
  {
    var d := Decimal(n);
    DecimalShape(n);
    assert !HasHexPrefix(d);
    DigitPrefixOfDigits(d, 10);
    DecimalValue(n);
  }

  /** `parseInt(String(n))` gives back `n` for every non-negative integer. */
  lemma ParseIntOfDecimal(n: nat)
    ensures ParseInt(Decimal(n)) == Some(n)
  {
    DecimalShape(n);
    StartsWithDigit(Decimal(n));
    ParseUnsignedDecimal(n);
  }

  /** A leading minus sign negates what parseInt reads from the rest of the text. */
  lemma ParseIntOfMinus(s: string)
    requires s != [] && s[0] == '-'
    ensures ParseUnsigned(s[1..]).None? ==> ParseInt(s).None?
    ensures ParseUnsigned(s[1..]).Some? ==> ParseInt(s).Some? && ParseInt(s).value == -(ParseUnsigned(s[1..]).value as int)
  {
    var c := s[0];
    assert !IsStrWhiteSpace(c);
    assert TrimStart(s) == s;
    assert StripSign(s) == s[1..];
    assert SignOf(s) == -1;
  }

  /** `parseInt(String(n))` gives back `n` for every integer, negative ones included. */
  lemma ParseIntOfNumberToString(n: int)
    ensures ParseInt(NumberToString(n)) == Some(n)
  {
    if n < 0 {
      var m: nat := -n;
      var s := NumberToString(n);
      assert s[1..] == Decimal(m);
      ParseUnsignedDecimal(m);
      ParseIntOfMinus(s);
    } else {
      ParseIntOfDecimal(n);
    }
  }

  /** Leading white space never changes what parseInt reads. */
  lemma {:induction false} TrimStartSkipsWhiteSpace(w: string, s: string)
    requires forall k :: 0 <= k < |w| ==> IsStrWhiteSpace(w[k])
    ensures TrimStart(w + s) == TrimStart(s)
  {
    if w != [] {
      assert (w + s)[0] == w[0];
      assert (w + s)[1..] == w[1..] + s;
      TrimStartSkipsWhiteSpace(w[1..], s);
    } else {
      assert w + s == s;
    }
  }

  lemma ParseIntIgnoresLeadingWhiteSpace(w: string, s: string)
    requires forall k :: 0 <= k < |w| ==> IsStrWhiteSpace(w[k])
    ensures ParseInt(w + s) == ParseInt(s)
  {
    TrimStartSkipsWhiteSpace(w, s);
  }

  /** Whatever follows the digits is ignored: `parseInt("12abc")` is 12. */
  lemma {:induction false} DigitPrefixStopsAtNonDigit(d: string, tail: string, radix: nat)
    requires forall k :: 0 <= k < |d| ==> IsRadixDigit(d[k], radix)
    requires tail == [] || !IsRadixDigit(tail[0], radix)
    ensures DigitPrefix(d + tail, radix) == d
  {
    if d != [] {
      assert (d + tail)[1..] == d[1..] + tail;
      DigitPrefixStopsAtNonDigit(d[1..], tail, radix);
    }
  }

  lemma ParseIntIgnoresTrailingText(n: nat, tail: string)
    requires tail == [] || !IsRadixDigit(tail[0], 10)
    requires n == 0 ==> tail == [] || (tail[0] != 'x' && tail[0] != 'X')
    ensures ParseInt(Decimal(n) + tail) == Some(n)
  {
    var d := Decimal(n);
    var s := d + tail;
    DecimalShape(n);
    assert s[0] == d[0];
    StartsWithDigit(s);
    assert HasHexPrefix(s) ==> n == 0 && |d| == 1;
    assert !HasHexPrefix(s);
    DigitPrefixStopsAtNonDigit(d, tail, 10);
    DecimalValue(n);
    assert ParseUnsigned(s) == Some(n);
  }

  /** Unsigned text that does not start with a decimal digit has no digits to read. */
  lemma ParseUnsignedOfNonDigit(u: string)
    requires u == [] || !IsRadixDigit(u[0], 10)
    ensures ParseUnsigned(u) == None
  {
    if u != [] {
      var c := u[0];
      assert c != '0';
    }
  }

  /** Text that starts with neither white space, a sign nor a decimal digit is NaN. */
  lemma ParseIntOfNonDigit(s: string)
    requires s == [] || (!IsStrWhiteSpace(s[0]) && s[0] != '-' && s[0] != '+' && !IsRadixDigit(s[0], 10))
    ensures ParseInt(s) == None
  {
    assert TrimStart(s) == s;
    assert StripSign(s) == s;
    ParseUnsignedOfNonDigit(s);
  }

  /**
   * Text whose first character after the white space is neither a sign nor a decimal digit
   * is NaN, the empty string included.
   */
  lemma ParseIntRejectsNonNumeric(w: string, s: string)
    requires forall k :: 0 <= k < |w| ==> IsStrWhiteSpace(w[k])
    requires s == [] || (!IsStrWhiteSpace(s[0]) && s[0] != '-' && s[0] != '+' && !IsRadixDigit(s[0], 10))
    ensures ParseInt(w + s) == None
  {
    TrimStartSkipsWhiteSpace(w, s);
    ParseIntOfNonDigit(s);
  }

  /** After a `0x` prefix, hex digits followed by a non-digit read as their radix-16 value. */
  lemma ParseUnsignedHex(u: string, d: string, tail: string)
    requires HasHexPrefix(u) && u[2..] == d + tail
    requires d != [] && forall k :: 0 <= k < |d| ==> IsRadixDigit(d[k], 16)
    requires tail == [] || !IsRadixDigit(tail[0], 16)
    ensures ParseUnsigned(u) == Some(DigitsValue(d, 16))
  {
    DigitPrefixStopsAtNonDigit(d, tail, 16);
  }

  /**
   * A `0x` or `0X` prefix switches to hexadecimal: `"0x"` followed by hex digits reads as
   * their radix-16 value, whatever non-digit text follows.
   */
  lemma ParseIntReadsHexPrefix(x: char, d: string, tail: string)
    requires x == 'x' || x == 'X'
    requires d != [] && forall k :: 0 <= k < |d| ==> IsRadixDigit(d[k], 16)
    requires tail == [] || !IsRadixDigit(tail[0], 16)
    ensures ParseInt(['0', x] + (d + tail)) == Some(DigitsValue(d, 16))
  {
    var u := d + tail;
    var s := ['0', x] + u;
    assert s[0] == '0' && s[1] == x;
    assert s[2..] == u;
    StartsWithDigit(s);
    ParseUnsignedHex(s, d, tail);
  }
}
