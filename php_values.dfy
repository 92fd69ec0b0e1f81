/**
 The PHP runtime values a comparator is handed, reduced to the traits the
 scalar comparator observes: which kind a value is, whether it is truthy,
 how an integer prints under a `(string)` cast, and which strings PHP 8
 treats as numeric.
 */
module PhpValues {

  /** A PHP value. Floats are kept as their IEEE 754 bit pattern and are
      otherwise opaque; an object is described by whether its class has a
      `__toString` method and by the string that method returns. */
  datatype Value =
    | Null
    | Bool(b: bool)
    | Int(i: int)
    | Float(bits: bv64)
    | Str(s: string)
    | Arr(elements: seq<Value>)
    | Obj(hasToString: bool, text: string)

  /** PHP's `is_scalar`: booleans, integers, floats and strings. */
  predicate IsScalar(v: Value)
    ensures IsScalar(v) <==> !(v.Null? || v.Arr? || v.Obj?)
  {
    v.Bool? || v.Int? || v.Float? || v.Str?
  }

  /** The kinds the comparator's acceptance rule can tell apart. */
  datatype Kind =
    | NullKind
    | NonStringScalarKind
    | StringKind
    | StringableObjectKind
    | PlainObjectKind
    | ArrayKind

  function KindOf(v: Value): (k: Kind)
    ensures k == NullKind <==> v.Null?
    ensures k == StringKind <==> v.Str?
    ensures k == NonStringScalarKind <==> IsScalar(v) && !v.Str?
    ensures k == StringableObjectKind <==> v.Obj? && v.hasToString
    ensures k == PlainObjectKind <==> v.Obj? && !v.hasToString
    ensures k == ArrayKind <==> v.Arr?
  {
    match v
    case Null => NullKind
    case Bool(_) => NonStringScalarKind
    case Int(_) => NonStringScalarKind
    case Float(_) => NonStringScalarKind
    case Str(_) => StringKind
    case Arr(_) => ArrayKind
    case Obj(hasToString, _) => if hasToString then StringableObjectKind else PlainObjectKind
  }

  /** Conversion to bool, as used by `==` when one side is a bool or null:
      null, false, 0, +0.0, -0.0, "", "0" and the empty array are falsy. */
  function Truthy(v: Value): (t: bool)
    ensures v.Str? ==> (t <==> v.s != "" && v.s != "0")
    ensures v.Obj? ==> t
    ensures v.Int? ==> (t <==> v.i != 0)
  {
    match v
    case Null => false
    case Bool(b) => b
    case Int(i) => i != 0
    // Both zeros (sign bit aside, all bits clear) are falsy; NAN is truthy.
    case Float(bits) => bits & 0x7FFF_FFFF_FFFF_FFFF != 0
    case Str(s) => s != "" && s != "0"
    case Arr(elements) => |elements| > 0
    case Obj(_, _) => true
  }

  // ---------------------------------------------------------------------
  // Decimal numerals: what `(string)` yields for an integer.

  predicate IsDigit(c: char) {
    '0' <= c <= '9'
  }

  predicate AllDigits(s: string) {
    forall k :: 0 <= k < |s| ==> IsDigit(s[k])
  }

  function DigitChar(d: nat): (c: char)
    requires d < 10
    ensures IsDigit(c) && c as int - '0' as int == d
  {
    (d + '0' as int) as char
  }

  function DigitValue(c: char): nat
    requires IsDigit(c)
  {
    c as int - '0' as int
  }

  /** The shortest decimal numeral of `n`. */
  function NatToDecimal(n: nat): (r: string)
    ensures |r| > 0 && AllDigits(r)
    ensures (r[0] == '0') <==> n == 0
    ensures n == 0 ==> r == "0"
  {
    if n < 10 then [DigitChar(n)] else NatToDecimal(n / 10) + [DigitChar(n % 10)]
  }

  /** `(string)` applied to a PHP integer. */
  function IntToString(i: int): (r: string)
    ensures |r| > 0 && (r[0] == '-' <==> i < 0)
    ensures i >= 0 ==> r == NatToDecimal(i)
    ensures i < 0 ==> r[1..] == NatToDecimal(-i)
  {
    if i < 0 then "-" + NatToDecimal(-i) else NatToDecimal(i)
  }

  /** The number a string of decimal digits denotes. */
  function DecimalValue(s: string): nat
    requires AllDigits(s)
  {
    if s == [] then 0 else 10 * DecimalValue(s[..|s| - 1]) + DigitValue(s[|s| - 1])
  }

  /** Reading the numeral back gives the number it was printed from. */
  lemma {:induction false} DecimalRoundTrip(n: nat)
    ensures DecimalValue(NatToDecimal(n)) == n
  {
    if n >= 10 {
      var r := NatToDecimal(n);
      assert r[..|r| - 1] == NatToDecimal(n / 10);
      DecimalRoundTrip(n / 10);
    }
  }

  /** Two distinct integers never print the same. */
  lemma IntToStringInjective(i: int, j: int)
    requires IntToString(i) == IntToString(j)
    ensures i == j
  {
    if i < 0 {
      DecimalRoundTrip(-i);
      DecimalRoundTrip(-j);
    } else {
      DecimalRoundTrip(i);
      DecimalRoundTrip(j);
    }
  }

  // ---------------------------------------------------------------------
  // PHP 8 numeric strings: optional leading whitespace, an optional sign, an
  // integer or decimal numeral (`1`, `1.`, `.5`, `1.5`) with an optional
  // exponent (`e5`, `E-5`), then optional trailing whitespace. Recognised in
  // one left-to-right pass.

  predicate IsWhitespace(c: char) {
    c == ' ' || c == '\t' || c == '\n' || c == '\r' || c == '\U{B}' || c == '\U{C}'
  }

  /** How much of a numeric string has been read. */
  datatype NumeralState =
    | Leading      // only whitespace so far
    | Signed       // a sign, no digit yet
    | IntPart      // digits before any point
    | BarePoint    // a point with no digit yet
    | Fraction     // a point with a digit before or after it
    | ExpMark      // `e` or `E`
    | ExpSign      // a sign after the exponent mark
    | ExpPart      // digits of the exponent
    | Trailing     // whitespace after the number
    | Rejected

  function NextState(st: NumeralState, c: char): NumeralState {
    match st
    case Leading =>
      if IsWhitespace(c) then Leading else if c == '+' || c == '-' then Signed
      else if IsDigit(c) then IntPart else if c == '.' then BarePoint else Rejected
    case Signed =>
      if IsDigit(c) then IntPart else if c == '.' then BarePoint else Rejected
    case IntPart =>
      if IsDigit(c) then IntPart else if c == '.' then Fraction
      else if c == 'e' || c == 'E' then ExpMark else if IsWhitespace(c) then Trailing else Rejected
    case BarePoint =>
      if IsDigit(c) then Fraction else Rejected
    case Fraction =>
      if IsDigit(c) then Fraction else if c == 'e' || c == 'E' then ExpMark
      else if IsWhitespace(c) then Trailing else Rejected
    case ExpMark =>
      if IsDigit(c) then ExpPart else if c == '+' || c == '-' then ExpSign else Rejected
    case ExpSign =>
      if IsDigit(c) then ExpPart else Rejected
    case ExpPart =>
      if IsDigit(c) then ExpPart else if IsWhitespace(c) then Trailing else Rejected
    case Trailing =>
      if IsWhitespace(c) then Trailing else Rejected
    case Rejected => Rejected
  }

  /** The state after reading `s[i..]` from state `st`. */
  function ReadNumeral(s: string, i: nat, st: NumeralState): NumeralState
    requires i <= |s|
    decreases |s| - i
  {
    if i == |s| then st else ReadNumeral(s, i + 1, NextState(st, s[i]))
  }

  predicate Complete(st: NumeralState) {
    st == IntPart || st == Fraction || st == ExpPart || st == Trailing
  }

  /** PHP 8's `is_numeric` for strings. */
  predicate IsNumeric(s: string) {
    Complete(ReadNumeral(s, 0, Leading))
  }

  /** A run of digits read after a digit leaves the reader among the digits. */
  lemma {:induction false} ReadDigits(s: string, i: nat)
    requires i <= |s| && forall k :: i <= k < |s| ==> IsDigit(s[k])
    ensures ReadNumeral(s, i, IntPart) == IntPart
    decreases |s| - i
  {
    if i < |s| {
      ReadDigits(s, i + 1);
    }
  }

  /** Every integer prints as a numeric string. */
  lemma IntToStringIsNumeric(i: int)
    ensures IsNumeric(IntToString(i))
  {
    var r := IntToString(i);
    if i < 0 {
      assert r[1..] == NatToDecimal(-i);
      ReadDigits(r, 2);
    } else {
      ReadDigits(r, 1);
    }
  }

  /** Cells of PHP 8's numeric-string grammar: surrounding whitespace, a
      sign, a bare point on either side and a signed exponent are accepted;
      an empty numeral, a dangling exponent, hexadecimal, trailing text and
      a space after the sign are not. */
  lemma NumericStringCells()
    ensures IsNumeric(" 1") && IsNumeric("1 ") && IsNumeric("1.") && IsNumeric(".5")
    ensures IsNumeric("1.5e-3") && IsNumeric("+.5") && IsNumeric("-12")
    ensures !IsNumeric("") && !IsNumeric(".") && !IsNumeric("1e") && !IsNumeric("1e+")
    ensures !IsNumeric("0x1A") && !IsNumeric(" ") && !IsNumeric("1abc") && !IsNumeric("- 1")
    ensures !IsNumeric("e5") && !IsNumeric("abc")
  {
  }
}
