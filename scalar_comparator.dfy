/**
 The scalar comparator: decides whether it handles a pair of values
 (`Accepts`) and, for a pair it handles, whether the two are equal
 (`AssertEquals`), reporting a mismatch as a `ComparisonFailure` value
 instead of throwing it.
 */
module ScalarComparator {
  import opened PhpValues
  import opened PhpRuntime

  /** The failure raised on a mismatch: the original values, their exported
      forms for a diff (empty when no diff is wanted), whether the diff is
      meaningful, and the message shown to the user. */
  datatype ComparisonFailure = ComparisonFailure(
    expected: Value,
    actual: Value,
    expectedAsString: string,
    actualAsString: string,
    identical: bool,
    message: string)

  /** How a call to assertEquals ends: it returns, it throws a
      ComparisonFailure, or the `(string)` cast of an object lacking
      `__toString` throws PHP's `Error`. */
  datatype Outcome =
    | Equal
    | Failed(failure: ComparisonFailure)
    | ConversionError(culprit: Value)

  const StringsDifferMessage: string := "Failed asserting that two strings are equal."

  // ---------------------------------------------------------------------
  // accepts

  predicate ScalarOrNullKind(k: Kind) {
    k == NullKind || k == NonStringScalarKind || k == StringKind
  }

  /** The acceptance rule stated on kinds alone: two scalars-or-nulls, or a
      string facing an object with `__toString`, in either order. */
  predicate AcceptedKinds(k1: Kind, k2: Kind) {
    match (k1, k2)
    case (StringKind, StringableObjectKind) => true
    case (StringableObjectKind, StringKind) => true
    case _ => ScalarOrNullKind(k1) && ScalarOrNullKind(k2)
  }

  /** `accepts`, written as the source writes it, with `xor` for the
      scalar-or-null test of each side. */
  function Accepts(expected: Value, actual: Value): (r: bool)
    ensures r <==> AcceptedKinds(KindOf(expected), KindOf(actual))
    ensures (IsScalar(expected) || expected.Null?) && (IsScalar(actual) || actual.Null?) ==> r
    ensures r && (expected.Obj? || actual.Obj?) ==>
              (expected.Str? && actual.hasToString) || (expected.hasToString && actual.Str?)
    ensures expected.Arr? || actual.Arr? ==> !r
  {
    ((IsScalar(expected) != expected.Null?) && (IsScalar(actual) != actual.Null?)) ||
    (expected.Str? && actual.Obj? && actual.hasToString) ||
    (expected.Obj? && expected.hasToString && actual.Str?)
  }

  /** Acceptance looks at kinds, never at contents. */
  lemma AcceptsDependsOnlyOnKinds(e1: Value, a1: Value, e2: Value, a2: Value)
    requires KindOf(e1) == KindOf(e2) && KindOf(a1) == KindOf(a2)
    ensures Accepts(e1, a1) == Accepts(e2, a2)
  {
  }

  /** Swapping the two sides never changes acceptance. */
  lemma AcceptsSymmetric(expected: Value, actual: Value)
    ensures Accepts(expected, actual) == Accepts(actual, expected)
  {
  }

  // ---------------------------------------------------------------------
  // assertEquals

  /** The condition under which both working copies are cast to strings: a
      string on one side and anything but a bool on the other. */
  predicate CoercesToStrings(expected: Value, actual: Value)
    // A string is never a bool, so this is: some string, and no bool at all.
    ensures CoercesToStrings(expected, actual) <==>
              (expected.Str? || actual.Str?) && !expected.Bool? && !actual.Bool?
  {
    (expected.Str? && !actual.Bool?) || (actual.Str? && !expected.Bool?)
  }

  /** The working copies assertEquals compares, or the value whose cast
      throws. */
  datatype WorkingCopies = Copies(x: Value, y: Value) | Uncastable(culprit: Value)

  /** A string as compared: lower-cased with mb_strtolower when case is ignored. */
  function Folded(h: Host, ignoreCase: bool, s: string): string {
    if ignoreCase then h.lower(s) else s
  }

  /** The working copies: the originals, unless one side is a string and
      the other is not a bool, in which case both are cast to strings and,
      if case is ignored, lower-cased. `expected` is cast first. */
  function MakeWorkingCopies(h: Host, expected: Value, actual: Value, ignoreCase: bool): (w: WorkingCopies)
    ensures !CoercesToStrings(expected, actual) ==> w == Copies(expected, actual)
    ensures CoercesToStrings(expected, actual) &&
            StringCast(h, expected).Some? && StringCast(h, actual).Some? ==>
              w == Copies(Str(Folded(h, ignoreCase, StringCast(h, expected).value)),
                          Str(Folded(h, ignoreCase, StringCast(h, actual).value)))
    ensures w.Uncastable? <==>
              CoercesToStrings(expected, actual) &&
              (StringCast(h, expected).None? || StringCast(h, actual).None?)
    ensures w.Uncastable? ==> w.culprit.Obj? && !w.culprit.hasToString
  {
    if !CoercesToStrings(expected, actual) then Copies(expected, actual)
    else
      match (StringCast(h, expected), StringCast(h, actual))
      case (None, _) => Uncastable(expected)
      case (_, None) => Uncastable(actual)
      case (Some(x), Some(y)) => Copies(Str(Folded(h, ignoreCase, x)), Str(Folded(h, ignoreCase, y)))
  }

  /** The failure thrown when two original strings differ. */
  function StringsDiffer(h: Host, expected: Value, actual: Value): ComparisonFailure {
    ComparisonFailure(expected, actual, h.exporter(expected), h.exporter(actual), false, StringsDifferMessage)
  }

  /** The failure thrown for any other mismatch: no diff, and a message
      naming both exported values. */
  function NoMatch(h: Host, expected: Value, actual: Value): ComparisonFailure {
    ComparisonFailure(expected, actual, "", "", false,
      "Failed asserting that " + h.exporter(actual) + " matches expected " + h.exporter(expected) + ".")
  }

  /** assertEquals. `delta` (a float, as its bit pattern) and `canonicalize`
      belong to the shared comparator interface; this comparator never reads
      them. */
  function AssertEquals(h: Host, expected: Value, actual: Value,
                        delta: bv64, canonicalize: bool, ignoreCase: bool): (r: Outcome)
    // Every failure reports the originals, never the working copies, and no diff.
    ensures r.Failed? ==>
              r.failure.expected == expected && r.failure.actual == actual && !r.failure.identical
    // Two strings: equal exactly when identical after the optional lower-casing.
    ensures expected.Str? && actual.Str? ==>
              !r.ConversionError? &&
              (r == Equal <==> Folded(h, ignoreCase, expected.s) == Folded(h, ignoreCase, actual.s)) &&
              (r.Failed? ==> r.failure == StringsDiffer(h, expected, actual))
    // Anything else: equal exactly when the working copies are loosely equal.
    ensures !(expected.Str? && actual.Str?) ==>
              match MakeWorkingCopies(h, expected, actual, ignoreCase)
              case Uncastable(v) => r == ConversionError(v)
              case Copies(x, y) =>
                if LooselyEqual(h, x, y) then r == Equal else r == Failed(NoMatch(h, expected, actual))
    // Only a cast can throw something other than a ComparisonFailure.
    ensures r.ConversionError? ==> CoercesToStrings(expected, actual) && r.culprit in {expected, actual}
  {
    match MakeWorkingCopies(h, expected, actual, ignoreCase)
    case Uncastable(v) => ConversionError(v)
    case Copies(x, y) =>
      if x != y && expected.Str? && actual.Str? then Failed(StringsDiffer(h, expected, actual))
      else if !LooselyEqual(h, x, y) then Failed(NoMatch(h, expected, actual))
      else Equal
  }
}
