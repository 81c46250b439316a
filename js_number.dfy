/** JavaScript's conversion of a value to a number (ToNumber, section 7.1.4
    of ECMA-262), which the relational operators `<` and `>` apply to a
    request field before comparing it with a number. Finite numbers are kept
    exact: rounding to the nearest double is not modelled. */
module JsNumber {
  import opened Wrappers
  import opened Json
  import Strings

  /** A JavaScript number: a finite value, one of the infinities, or NaN. */
  datatype Number = Finite(x: real) | PosInfinity | NegInfinity | NaN

  /** `n < k`; false when `n` is NaN. */
  predicate Less(n: Number, k: int) {
    match n
    case Finite(x) => x < k as real
    case NegInfinity => true
    case PosInfinity => false
    case NaN => false
  }

  /** `n > k`; false when `n` is NaN. */
  predicate Greater(n: Number, k: int) {
    match n
    case Finite(x) => x > k as real
    case PosInfinity => true
    case NegInfinity => false
    case NaN => false
  }

  /** The value of a hexadecimal digit (also used for the smaller bases). */
  function DigitValue(c: char): nat {
    if '0' <= c <= '9' then c as int - '0' as int
    else if 'a' <= c <= 'f' then c as int - 'a' as int + 10
    else if 'A' <= c <= 'F' then c as int - 'A' as int + 10
    else 16
  }

  predicate AllDigits(s: string, base: nat) {
    forall i {:trigger DigitValue(s[i])} | 0 <= i < |s| :: DigitValue(s[i]) < base
  }

  /** The number a string of digits in `base` denotes. */
  function DigitsValue(s: string, base: nat): nat {
    if s == [] then 0 else DigitsValue(s[..|s| - 1], base) * base + DigitValue(s[|s| - 1])
  }

  function Pow10(k: nat): (r: nat)
    ensures r > 0
  {
    if k == 0 then 1 else 10 * Pow10(k - 1)
  }

  /** `m` times ten to the power `e`. */
  function Scale(m: real, e: int): real {
    if e >= 0 then m * Pow10(e) as real else m / Pow10(-e) as real
  }

  /** The first index holding `a` or `b`, or -1. */
  function IndexOfEither(s: string, a: char, b: char): (k: int)
    ensures -1 <= k < |s|
    ensures k >= 0 ==> (s[k] == a || s[k] == b)
  {
    if s == [] then -1
    else if s[0] == a || s[0] == b then 0
    else
      var k := IndexOfEither(s[1..], a, b);
      if k == -1 then -1 else k + 1
  }

  /** A StrIntegerLiteral exponent: an optional sign and at least one
      decimal digit. */
  function SignedInteger(s: string): Option<int> {
    if s != [] && (s[0] == '+' || s[0] == '-') then
      if |s| > 1 && AllDigits(s[1..], 10) then
        var m: int := DigitsValue(s[1..], 10);
        Some(if s[0] == '-' then -m else m)
      else None
    else if s != [] && AllDigits(s, 10) then Some(DigitsValue(s, 10))
    else None
  }

  /** A StrUnsignedDecimalLiteral other than `Infinity`: a mantissa, then
      an optional exponent. */
  function UnsignedDecimal(s: string): Option<real> {
    var e := IndexOfEither(s, 'e', 'E');
    if e == -1 then Mantissa(s, 0)
    else
      match SignedInteger(s[e + 1..])
      case Some(exponent) => Mantissa(s[..e], exponent)
      case None => None
  }

  /** Digits with an optional `.` and fraction, at least one digit in all,
      scaled by ten to the power `exponent`. */
  function Mantissa(m: string, exponent: int): Option<real> {
    var dot := IndexOfEither(m, '.', '.');
    if dot == -1 then
      if m != [] && AllDigits(m, 10) then Some(Scale(DigitsValue(m, 10) as real, exponent)) else None
    else
      var whole := m[..dot];
      var fraction := m[dot + 1..];
      if AllDigits(whole, 10) && AllDigits(fraction, 10) && |whole| + |fraction| > 0 then
        Some(Scale(DigitsValue(whole + fraction, 10) as real, exponent - |fraction|))
      else None
  }

  /** The base a `0x`, `0o` or `0b` prefix names, or 0. */
  function PrefixBase(c: char): nat {
    if c == 'x' || c == 'X' then 16
    else if c == 'o' || c == 'O' then 8
    else if c == 'b' || c == 'B' then 2
    else 0
  }

  /** A NonDecimalIntegerLiteral: `0x`, `0o` or `0b`, unsigned, and at least
      one digit of that base. */
  function NonDecimal(t: string): Option<nat> {
    if |t| >= 3 && t[0] == '0' && PrefixBase(t[1]) != 0 && AllDigits(t[2..], PrefixBase(t[1])) then
      Some(DigitsValue(t[2..], PrefixBase(t[1])))
    else None
  }

  /** StringToNumber: the trimmed string as a StringNumericLiteral. */
  function StringToNumber(s: string): Number {
    LiteralValue(Strings.Trim(s))
  }

  /** The number a trimmed string denotes: the empty string is 0, and
      anything that is not a StringNumericLiteral is NaN. */
  function LiteralValue(t: string): Number {
    if t == [] then Finite(0.0)
    else if NonDecimal(t).Some? then Finite(NonDecimal(t).value as real)
    else
      var negative := t[0] == '-';
      var rest := if t[0] == '+' || t[0] == '-' then t[1..] else t;
      if rest == "Infinity" then (if negative then NegInfinity else PosInfinity)
      else
        match UnsignedDecimal(rest)
        case Some(x) => Finite(if negative then -x else x)
        case None => NaN
  }

  /** The decimal digit for `d`. */
  function DigitChar(d: nat): char
    requires d < 10
  {
    ('0' as int + d) as char
  }

  /** Number-to-string for a non-negative integer: its decimal digits,
      without leading zeros. */
  function NatToString(n: nat): string {
    if n < 10 then [DigitChar(n)] else NatToString(n / 10) + [DigitChar(n % 10)]
  }

  /** Number-to-string for an integer. */
  function IntToString(n: int): string {
    if n < 0 then "-" + NatToString(-n) else NatToString(n)
  }

  /** ToString of an array element inside `Array.prototype.join`:
      `undefined` and `null` become the empty string. */
  function ElementString(v: Value): string
    decreases v, 1
  {
    match v
    case Undefined => ""
    case Null => ""
    case Bool(b) => if b then "true" else "false"
    case Num(n) => IntToString(n)
    case Str(s) => s
    case Arr(items) => JoinPrefix(v, |items|)
    case Obj(_) => "[object Object]"
  }

  /** `a.slice(0, k).join(",")` for an array value `a`. */
  function JoinPrefix(a: Value, k: nat): string
    requires a.Arr? && k <= |a.items|
    decreases a, 0, k
  {
    if k == 0 then ""
    else if k == 1 then ElementString(a.items[0])
    else JoinPrefix(a, k - 1) + "," + ElementString(a.items[k - 1])
  }

  /** ToNumber: an array converts through its `join(",")` string, an object
      through `"[object Object]"`, which is NaN. */
  function ToNumber(v: Value): Number {
    match v
    case Undefined => NaN
    case Null => Finite(0.0)
    case Bool(b) => Finite(if b then 1.0 else 0.0)
    case Num(n) => Finite(n as real)
    case Str(s) => StringToNumber(s)
    case Arr(items) => StringToNumber(JoinPrefix(v, |items|))
    case Obj(_) => NaN
  }

  lemma {:induction false} DigitsValueAppend(s: string, c: char, base: nat)
    ensures DigitsValue(s + [c], base) == DigitsValue(s, base) * base + DigitValue(c)
  {
    assert (s + [c])[..|s|] == s;
  }

  /** The digits `NatToString` writes read back as `n`. */
  lemma {:induction false} NatToStringDigits(n: nat)
    ensures NatToString(n) != [] && AllDigits(NatToString(n), 10)
    ensures DigitsValue(NatToString(n), 10) == n
  {
    if n >= 10 {
      NatToStringDigits(n / 10);
      DigitsValueAppend(NatToString(n / 10), DigitChar(n % 10), 10);
    }
  }

  /** A string with no whitespace at either end is its own trim. */
  lemma TrimUnpadded(s: string)
    requires s != [] && !Strings.IsJsWhitespace(s[0]) && !Strings.IsJsWhitespace(s[|s| - 1])
    ensures Strings.Trim(s) == s
  {
  }

  /** A string of decimal digits holds neither of two non-digits. */
  lemma DigitsLackEither(s: string, a: char, b: char)
    requires AllDigits(s, 10) && DigitValue(a) >= 10 && DigitValue(b) >= 10
    ensures IndexOfEither(s, a, b) == -1
  {
  }

  /** A digit string with no `.` or exponent reads as its digits'
      value. */
  lemma UnsignedDigits(s: string)
    requires s != [] && AllDigits(s, 10)
    ensures UnsignedDecimal(s) == Some(DigitsValue(s, 10) as real)
  {
    DigitsLackEither(s, 'e', 'E');
    MantissaOfDigits(s, 0);
  }

  /** A mantissa without `.` is its digits' value, scaled. */
  lemma MantissaOfDigits(m: string, exponent: int)
    requires m != [] && AllDigits(m, 10)
    ensures Mantissa(m, exponent) == Some(Scale(DigitsValue(m, 10) as real, exponent))
  {
    DigitsLackEither(m, '.', '.');
  }

  /** A decimal digit string does not start with `0x`, `0o` or `0b`. */
  lemma DigitsNotPrefixed(s: string)
    requires AllDigits(s, 10)
    ensures NonDecimal(s).None?
  {
    if |s| >= 3 {
      assert DigitValue(s[1]) < 10;
    }
  }

  /** A digit string is the number its digits denote. */
  lemma DigitsConvert(s: string)
    requires s != [] && AllDigits(s, 10)
    ensures LiteralValue(s) == Finite(DigitsValue(s, 10) as real)
  {
    UnsignedDigits(s);
    DigitsNotPrefixed(s);
    assert s[0] != 'I' && s[0] != '-' && s[0] != '+' by {
      assert DigitValue(s[0]) < 10;
    }
    assert s != "Infinity";
  }

  /** A digit string after a minus sign is the negation of the number its
      digits denote. */
  lemma NegatedDigitsConvert(s: string)
    requires s != [] && AllDigits(s, 10)
    ensures LiteralValue("-" + s) == Finite(-(DigitsValue(s, 10) as real))
  {
    UnsignedDigits(s);
    assert s[0] != 'I' by {
      assert DigitValue(s[0]) < 10;
    }
    var t := "-" + s;
    assert t[1..] == s && t[0] == '-';
    assert t[1..] != "Infinity";
  }

  /** Decimal digits and the minus sign are not whitespace. */
  lemma NotWhitespace(c: char)
    requires DigitValue(c) < 10 || c == '-'
    ensures !Strings.IsJsWhitespace(c)
  {
  }

  /** Round trip: converting an integer to its decimal string and back
      gives the integer. */
  lemma DecimalRoundTrip(n: int)
    ensures IntToString(n) != []
    ensures StringToNumber(IntToString(n)) == Finite(n as real)
  {
    var digits := NatToString(if n < 0 then -n else n);
    NatToStringDigits(if n < 0 then -n else n);
    NotWhitespace(digits[0]);
    NotWhitespace(digits[|digits| - 1]);
    var s := IntToString(n);
    if n < 0 {
      assert s == "-" + digits;
      TrimUnpadded(s);
      NegatedDigitsConvert(digits);
    } else {
      assert s == digits;
      TrimUnpadded(s);
      DigitsConvert(digits);
    }
  }

  /** An array holding one integer converts to that integer. */
  lemma SingletonArrayToNumber(n: int)
    ensures ToNumber(Arr([Num(n)])) == Finite(n as real)
  {
    assert JoinPrefix(Arr([Num(n)]), 1) == IntToString(n);
    DecimalRoundTrip(n);
  }

  /** The empty array, and a string of whitespace only, convert to 0. */
  lemma BlankToZero(s: string)
    requires Strings.AllWhitespace(s)
    ensures ToNumber(Arr([])) == Finite(0.0)
    ensures ToNumber(Str(s)) == Finite(0.0)
  {
    Strings.TrimEmptyIff(s);
  }

  /** Whitespace around a string does not change the number it converts
      to. */
  lemma TrimIgnored(s: string)
    ensures StringToNumber(Strings.Trim(s)) == StringToNumber(s)
  {
    Strings.TrimIdempotent(s);
  }

  /** A mantissa whose second character is neither a digit nor `.` is not
      a number. */
  lemma MantissaRejects(m: string, exponent: int)
    requires |m| >= 2 && m[0] != '.' && m[1] != '.' && DigitValue(m[1]) >= 10
    ensures Mantissa(m, exponent).None?
  {
    var dot := IndexOfEither(m, '.', '.');
    if dot != -1 {
      assert m[..dot][1] == m[1];
    }
  }

  /** A `0x`, `0o` or `0b` literal is its digits' value in that base. */
  lemma NonDecimalConverts(base: char, digits: string)
    requires PrefixBase(base) != 0 && digits != [] && AllDigits(digits, PrefixBase(base))
    ensures LiteralValue(['0', base] + digits) == Finite(DigitsValue(digits, PrefixBase(base)) as real)
  {
    assert (['0', base] + digits)[2..] == digits;
  }

  /** The same literal with a minus sign in front is NaN: only decimal
      literals take a sign. */
  lemma SignedNonDecimalIsNaN(base: char, digits: string)
    requires PrefixBase(base) != 0
    ensures LiteralValue(['-', '0', base] + digits) == NaN
  {
    var s := ['0', base] + digits;
    var t := ['-', '0', base] + digits;
    assert t[1..] == s && t[0] == '-';
    assert s[0] == '0' && s != "Infinity";
    var e := IndexOfEither(s, 'e', 'E');
    assert e != 0 && e != 1;
    if e == -1 {
      MantissaRejects(s, 0);
    } else if SignedInteger(s[e + 1..]).Some? {
      assert s[..e][1] == base;
      MantissaRejects(s[..e], SignedInteger(s[e + 1..]).value);
    }
    assert UnsignedDecimal(s).None?;
  }
}
