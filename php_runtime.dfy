/**
 The parts of the PHP engine and its libraries that the scalar comparator
 calls: the `(string)` cast, PHP 8's loose `==`, `mb_strtolower` and the
 exporter. Whatever the model does not define itself is a field of `Host`,
 a record of functions supplied by the caller.
 */
module PhpRuntime {
  import opened PhpValues

  datatype Option<T> = None | Some(value: T)

  /** The collaborators the comparator relies on but that are not part of
      this model, each a total, deterministic function. */
  datatype Host = Host(
    // Exporter::export: the human-readable rendering of a value.
    exporter: Value -> string,
    // mb_strtolower($s, 'UTF-8').
    lower: string -> string,
    // The `(string)` cast of a float (depends on the `precision` setting).
    floatToString: bv64 -> string,
    // Whether two numeric strings denote the same number.
    sameNumber: (string, string) -> bool,
    // `==` for the pairs not decided below: a float or an object or an array
    // against a number, a string, an object or an array.
    otherLoose: (Value, Value) -> bool)

  predicate IsAscii(s: string) {
    forall k :: 0 <= k < |s| ==> s[k] < 128 as char
  }

  /** Lower-casing of the ASCII letters A-Z, leaving every other character as is. */
  function AsciiLower(s: string): (r: string)
    ensures |r| == |s|
    ensures forall k :: 0 <= k < |s| ==> ('A' <= s[k] <= 'Z' ==> r[k] as int == s[k] as int + 32)
    ensures forall k :: 0 <= k < |s| ==> (!('A' <= s[k] <= 'Z') ==> r[k] == s[k])
  {
    if s == [] then []
    else [if 'A' <= s[0] <= 'Z' then (s[0] as int + 32) as char else s[0]] + AsciiLower(s[1..])
  }

  /** What the model assumes of `mb_strtolower` when a proof needs it: on
      pure-ASCII text it maps A-Z to a-z and changes nothing else. */
  ghost predicate LowersAscii(h: Host) {
    forall s :: IsAscii(s) ==> h.lower(s) == AsciiLower(s)
  }

  /** PHP's `(string)` cast; `None` where PHP 8 throws an `Error` (an object
      whose class has no `__toString`). */
  function StringCast(h: Host, v: Value): (r: Option<string>)
    ensures r.None? <==> v.Obj? && !v.hasToString
    ensures v.Str? ==> r == Some(v.s)
    ensures v.Null? ==> r == Some("")
    ensures v.Bool? ==> r == Some(if v.b then "1" else "")
    ensures v.Int? ==> r == Some(IntToString(v.i)) && IsNumeric(r.value)
    ensures v.Float? ==> r == Some(h.floatToString(v.bits))
    ensures v.Arr? ==> r == Some("Array")
    ensures v.Obj? && v.hasToString ==> r == Some(v.text)
  {
    match v
    case Null => Some("")
    case Bool(b) => Some(if b then "1" else "")
    case Int(i) => IntToStringIsNumeric(i); Some(IntToString(i))
    case Float(bits) => Some(h.floatToString(bits))
    case Str(s) => Some(s)
    case Arr(_) => Some("Array")
    case Obj(hasToString, text) => if hasToString then Some(text) else None
  }

  /** PHP 8 `==` on two strings: numeric strings compare as numbers,
      any other pair compares as text. */
  function StringsLooselyEqual(h: Host, s: string, t: string): (r: bool)
    ensures s == t ==> r
    ensures !(IsNumeric(s) && IsNumeric(t)) ==> (r <==> s == t)
  {
    // Identical numerals always denote the same number.
    s == t || (IsNumeric(s) && IsNumeric(t) && h.sameNumber(s, t))
  }

  /** PHP 8 `==`. A bool or null on either side compares truthiness (except
      null against a string, which compares the string with ""); integers
      compare by value; an integer against a string compares the integer's
      numeral with the string; the rest is left to the host. */
  function LooselyEqual(h: Host, x: Value, y: Value): (r: bool)
    ensures x.Bool? ==> (r <==> x.b == Truthy(y))
    ensures y.Bool? ==> (r <==> Truthy(x) == y.b)
    ensures x.Null? && !y.Str? ==> (r <==> !Truthy(y))
    ensures y.Null? && !x.Str? ==> (r <==> !Truthy(x))
    ensures x.Str? && y.Str? ==> (x.s == y.s ==> r)
    ensures x.Int? && y.Int? ==> (r <==> x.i == y.i)
    ensures x.Int? && y.Str? && !IsNumeric(y.s) ==> !r
    ensures x.Str? && y.Int? && !IsNumeric(x.s) ==> !r
  {
    match (x, y)
    case (Null, Str(t)) => t == ""
    case (Str(s), Null) => s == ""
    case (Bool(b), _) => b == Truthy(y)
    case (_, Bool(b)) => Truthy(x) == b
    case (Null, _) => !Truthy(y)
    case (_, Null) => !Truthy(x)
    case (Int(i), Int(j)) => i == j
    case (Int(i), Str(t)) => IntToStringIsNumeric(i); StringsLooselyEqual(h, IntToString(i), t)
    case (Str(s), Int(j)) => IntToStringIsNumeric(j); StringsLooselyEqual(h, s, IntToString(j))
    case (Str(s), Str(t)) => StringsLooselyEqual(h, s, t)
    case _ => h.otherLoose(x, y)
  }

  /** The comparison table is symmetric on every cell the model decides. */
  lemma LooselyEqualSymmetric(h: Host, x: Value, y: Value)
    requires forall s, t :: h.sameNumber(s, t) == h.sameNumber(t, s)
    requires !(x.Float? || x.Arr? || x.Obj?) || y.Bool? || y.Null?
    requires !(y.Float? || y.Arr? || y.Obj?) || x.Bool? || x.Null?
    ensures LooselyEqual(h, x, y) == LooselyEqual(h, y, x)
  {
  }
}
