/**
 Properties of the scalar comparator that relate several calls or hold for
 whole families of inputs, and the behaviour on the concrete pairs the
 comparator's design singles out.
 */
module ComparatorProperties {
  import opened PhpValues
  import opened PhpRuntime
  import opened ScalarComparator

  /** An accepted pair can always be cast, so assertEquals on it either
      returns or throws a ComparisonFailure, nothing else. */
  lemma AcceptedPairsNeverHitConversionError(h: Host, expected: Value, actual: Value,
                                             delta: bv64, canonicalize: bool, ignoreCase: bool)
    requires Accepts(expected, actual)
    ensures AssertEquals(h, expected, actual, delta, canonicalize, ignoreCase).Equal? ||
            AssertEquals(h, expected, actual, delta, canonicalize, ignoreCase).Failed?
  {
  }

  /** `delta` and `canonicalize` are never read. */
  lemma OutcomeIgnoresDeltaAndCanonicalize(h: Host, expected: Value, actual: Value, ignoreCase: bool,
                                           d1: bv64, c1: bool, d2: bv64, c2: bool)
    ensures AssertEquals(h, expected, actual, d1, c1, ignoreCase) ==
            AssertEquals(h, expected, actual, d2, c2, ignoreCase)
  {
  }

  /** `ignoreCase` only matters once both copies have been cast to strings;
      in particular it has no effect on a string paired with a bool. */
  lemma IgnoreCaseNeedsCoercion(h: Host, expected: Value, actual: Value, delta: bv64, canonicalize: bool)
    requires !CoercesToStrings(expected, actual)
    ensures AssertEquals(h, expected, actual, delta, canonicalize, true) ==
            AssertEquals(h, expected, actual, delta, canonicalize, false)
  {
  }

  /** A string and a bool are never cast, in either order. */
  lemma StringAndBoolAreNotCoerced(s: string, b: bool)
    ensures !CoercesToStrings(Str(s), Bool(b)) && !CoercesToStrings(Bool(b), Str(s))
  {
  }

  /** A bool against a string compares truthiness: `true` equals every
      string except "" and "0". */
  lemma BoolAgainstString(h: Host, b: bool, s: string, delta: bv64, canonicalize: bool, ignoreCase: bool)
    ensures AssertEquals(h, Bool(b), Str(s), delta, canonicalize, ignoreCase) ==
            if b == (s != "" && s != "0") then Equal else Failed(NoMatch(h, Bool(b), Str(s)))
  {
  }

  /** Every accepted value other than a float equals itself (a float may be
      NAN, which PHP does not consider equal to itself). */
  lemma AcceptedValuesEqualThemselves(h: Host, v: Value, delta: bv64, canonicalize: bool, ignoreCase: bool)
    requires Accepts(v, v) && !v.Float?
    ensures AssertEquals(h, v, v, delta, canonicalize, ignoreCase) == Equal
  {
  }

  /** An integer never equals a string that is not numeric, whatever the
      two texts look like: `0` against "Foobar" fails. */
  lemma IntAgainstNonNumericString(h: Host, i: int, s: string, delta: bv64, canonicalize: bool)
    requires !IsNumeric(s)
    ensures AssertEquals(h, Int(i), Str(s), delta, canonicalize, false) == Failed(NoMatch(h, Int(i), Str(s)))
    ensures AssertEquals(h, Str(s), Int(i), delta, canonicalize, false) == Failed(NoMatch(h, Str(s), Int(i)))
  {
  }

  /** An integer against the numeral it prints as is equal. */
  lemma IntAgainstItsNumeral(h: Host, i: int, delta: bv64, canonicalize: bool, ignoreCase: bool)
    ensures AssertEquals(h, Int(i), Str(IntToString(i)), delta, canonicalize, ignoreCase) == Equal
  {
  }

  /** Two original strings that are numerals of integers are equal exactly
      when the integers are: the strict string check sees no other way. */
  lemma IntegerNumeralsEqualExactlyForEqualIntegers(h: Host, i: int, j: int, delta: bv64, canonicalize: bool)
    ensures AssertEquals(h, Str(IntToString(i)), Str(IntToString(j)), delta, canonicalize, false) == Equal
            <==> i == j
  {
    if IntToString(i) == IntToString(j) {
      IntToStringInjective(i, j);
    }
  }

  /** A string against an object with `__toString` compares the string with
      the object's text, both lower-cased when case is ignored; unless both
      compared texts are numeric, they must be identical. */
  lemma StringAgainstStringableObject(h: Host, s: string, t: string,
                                      delta: bv64, canonicalize: bool, ignoreCase: bool)
    requires !(IsNumeric(Folded(h, ignoreCase, s)) && IsNumeric(Folded(h, ignoreCase, t)))
    ensures AssertEquals(h, Str(s), Obj(true, t), delta, canonicalize, ignoreCase) ==
            if Folded(h, ignoreCase, s) == Folded(h, ignoreCase, t) then Equal
            else Failed(NoMatch(h, Str(s), Obj(true, t)))
    ensures AssertEquals(h, Obj(true, t), Str(s), delta, canonicalize, ignoreCase) ==
            if Folded(h, ignoreCase, s) == Folded(h, ignoreCase, t) then Equal
            else Failed(NoMatch(h, Obj(true, t), Str(s)))
  {
  }

  /** The strict string check comes first: "1" and "1.0" are loosely equal
      numeric strings, yet two original strings must match exactly. */
  lemma StrictStringCheckTakesPrecedence(h: Host, delta: bv64, canonicalize: bool)
    requires h.sameNumber("1", "1.0")
    ensures LooselyEqual(h, Str("1"), Str("1.0"))
    ensures AssertEquals(h, Str("1"), Str("1.0"), delta, canonicalize, false) ==
            Failed(StringsDiffer(h, Str("1"), Str("1.0")))
  {
  }

  // ---------------------------------------------------------------------
  // Concrete pairs.

  lemma NullPairs(h: Host, delta: bv64, canonicalize: bool, ignoreCase: bool)
    ensures Accepts(Null, Null) && Accepts(Null, Int(5)) && Accepts(Int(5), Null)
    ensures AssertEquals(h, Null, Null, delta, canonicalize, ignoreCase) == Equal
    ensures AssertEquals(h, Null, Int(0), delta, canonicalize, ignoreCase) == Equal
    ensures AssertEquals(h, Null, Int(5), delta, canonicalize, ignoreCase) == Failed(NoMatch(h, Null, Int(5)))
  {
  }

  lemma StringsDifferingInCase(h: Host, delta: bv64, canonicalize: bool)
    ensures AssertEquals(h, Str("Foo"), Str("foo"), delta, canonicalize, false) ==
            Failed(ComparisonFailure(Str("Foo"), Str("foo"), h.exporter(Str("Foo")), h.exporter(Str("foo")),
                                     false, "Failed asserting that two strings are equal."))
  {
  }

  lemma StringsDifferingInCaseIgnored(h: Host, delta: bv64, canonicalize: bool)
    requires LowersAscii(h)
    ensures AssertEquals(h, Str("Foo"), Str("foo"), delta, canonicalize, true) == Equal
  {
  }

  lemma ZeroAgainstNonNumericString(h: Host, delta: bv64, canonicalize: bool)
    ensures AssertEquals(h, Int(0), Str("abc"), delta, canonicalize, false) ==
            Failed(ComparisonFailure(Int(0), Str("abc"), "", "", false,
              "Failed asserting that " + h.exporter(Str("abc")) + " matches expected " + h.exporter(Int(0)) + "."))
  {
  }

  lemma BooleanExemption(h: Host, delta: bv64, canonicalize: bool, ignoreCase: bool)
    ensures AssertEquals(h, Bool(true), Str("1"), delta, canonicalize, ignoreCase) == Equal
    ensures AssertEquals(h, Bool(true), Str("abc"), delta, canonicalize, ignoreCase) == Equal
    ensures AssertEquals(h, Bool(false), Str("0"), delta, canonicalize, ignoreCase) == Equal
    ensures AssertEquals(h, Bool(true), Str("0"), delta, canonicalize, ignoreCase) ==
            Failed(NoMatch(h, Bool(true), Str("0")))
  {
  }
}
