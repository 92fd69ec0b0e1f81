# Scalar comparator of sebastian/comparator, modelled in Dafny

sebastian/comparator decides whether two PHP values are equal for PHPUnit's
`assertEquals`. A registry of comparators picks the first one that
*accepts* a pair of values; that comparator's `assertEquals` either returns
or throws a `ComparisonFailure` carrying the two values, their exported
forms for a diff and a message. This project models the `ScalarComparator`,
the comparator for scalars, null, and strings compared with objects that
have `__toString`.

- `php_values.dfy` (module `PhpValues`): PHP values reduced to what the
  comparator observes (null, bool, int, float as an opaque IEEE 754 bit
  pattern, string, array, object with or without `__toString`), their kinds,
  truthiness, the decimal numeral `(string)` gives for an integer, and
  PHP 8's numeric-string rule as a one-pass recogniser.
- `php_runtime.dfy` (module `PhpRuntime`): the `(string)` cast, PHP 8's
  loose `==` as an explicit table, and `Host`, the record of functions for
  everything the model leaves to its caller (the exporter, `mb_strtolower`,
  float-to-string, numeric comparison of two numeric strings, and the `==`
  cells that involve floats, objects or arrays).
- `scalar_comparator.dfy` (module `ScalarComparator`): `Accepts` and
  `AssertEquals`, with the thrown failure as an `Outcome` value.
- `comparator_properties.dfy` (module `ComparatorProperties`): lemmas over
  many calls or families of inputs, and the outcome on concrete pairs.

`assertEquals` is a pure function here. Calling it twice with the same
arguments gives the same outcome because it is a function. A call to it
returns one of three outcomes:
- `Equal`: the call returns normally.
- `Failed(failure)`: it throws one `ComparisonFailure`.
- `ConversionError(culprit)`: the `(string)` cast hits an object without
  `__toString`. PHP 8 throws an `Error` there.

`Accepts` rules that last case out for every pair the comparator is
dispatched on.

## Model

| member | source | states |
|---|---|---|
| `PhpValues.IsScalar` | src/ScalarComparator.php:36-37 | `is_scalar` holds exactly for the values that are not null, an array or an object |
| `PhpValues.KindOf` | src/ScalarComparator.php:36-40 | each value has exactly one of the kinds the acceptance rule distinguishes: null, non-string scalar (`is_scalar` minus strings), string, object with `__toString`, other object, array; each kind is pinned by an if-and-only-if on the value's constructor |
| `PhpValues.Truthy` | src/ScalarComparator.php:83 | the bool conversion `==` applies when one side is a bool or null: a string is truthy unless it is "" or "0", an integer unless 0, an object always |
| `PhpValues.NatToDecimal` | src/ScalarComparator.php:63-64 | the numeral of a natural number is non-empty, all digits, and starts with '0' only for zero (no leading zeros) |
| `PhpValues.IntToString` | src/ScalarComparator.php:63-64 | the `(string)` cast of an integer is a '-' exactly for negatives followed by the numeral of its magnitude |
| `PhpValues.DecimalRoundTrip` | src/ScalarComparator.php:63-64 | reading back the numeral of `n` gives `n` |
| `PhpValues.IntToStringInjective` | src/ScalarComparator.php:63-64 | two integers with the same `(string)` cast are the same integer |
| `PhpValues.NumericStringCells` | src/ScalarComparator.php:83 | the numeric-string recogniser accepts " 1", "1 ", "1.", ".5", "1.5e-3", "+.5", "-12" and rejects "", ".", "1e", "1e+", "0x1A", " ", "1abc", "- 1", "e5", "abc", as PHP 8 does |
| `PhpValues.IntToStringIsNumeric` | src/ScalarComparator.php:83 | the cast of every integer is a numeric string, so `==` compares it with another numeric string as a number |
| `PhpRuntime.StringCast` | src/ScalarComparator.php:63-64 | the cast fails exactly for an object lacking `__toString`; a string casts to itself, null to "", true to "1", false to "", an integer to its decimal numeral (a numeric string), a float to the host's rendering, an array to "Array", an object with `__toString` to its text |
| `PhpRuntime.StringsLooselyEqual` | src/ScalarComparator.php:83 | identical strings are loosely equal; unless both are numeric, two strings are loosely equal only when identical |
| `PhpRuntime.LooselyEqual` | src/ScalarComparator.php:83 | PHP 8 `==`: a bool on either side compares truthiness; null against a non-string compares with falsiness; integers compare by value; identical strings are equal; an integer never equals a non-numeric string, on either side |
| `PhpRuntime.LooselyEqualSymmetric` | src/ScalarComparator.php:83 | on every cell the model decides, `==` is symmetric when the host's numeric comparison is |
| `PhpRuntime.AsciiLower` | src/ScalarComparator.php:67-68 | the reference lower-casing assumed of `mb_strtolower` on ASCII text: A-Z move to a-z, every other character and the length are kept |
| `ScalarComparator.Accepts` | src/ScalarComparator.php:34-41 | acceptance equals the kind table (two scalars-or-nulls, or a string with an object having `__toString` in either order); the `xor` form accepts every scalar-or-null pair; an accepted pair with an object always pairs it, having `__toString`, with a string; arrays are never accepted |
| `ScalarComparator.AcceptsDependsOnlyOnKinds` | src/ScalarComparator.php:34-41 | two pairs with the same kinds are both accepted or both rejected |
| `ScalarComparator.AcceptsSymmetric` | src/ScalarComparator.php:36-40 | swapping expected and actual never changes acceptance |
| `ScalarComparator.CoercesToStrings` | src/ScalarComparator.php:62 | both copies are cast exactly when at least one side is a string and neither side is a bool |
| `ScalarComparator.MakeWorkingCopies` | src/ScalarComparator.php:56-70 | the working copies are the originals unless a string faces a non-bool; then both are the cast strings, lower-cased when `ignoreCase`; the cast fails exactly when a side is an object without `__toString` |
| `ScalarComparator.AssertEquals` | src/ScalarComparator.php:54-98 | every failure carries the original values and `identical` false; two strings are equal exactly when identical after optional lower-casing, else the "two strings are equal" failure with both exported originals; any other pair is equal exactly when its working copies are loosely equal, else the failure with empty diff strings and the "matches expected" message; only a cast can raise a conversion error |
| `ComparatorProperties.AcceptedPairsNeverHitConversionError` | src/ScalarComparator.php:34-41 | on an accepted pair assertEquals either returns or throws a ComparisonFailure |
| `ComparatorProperties.OutcomeIgnoresDeltaAndCanonicalize` | src/ScalarComparator.php:54 | the outcome is the same whatever `delta` and `canonicalize` are |
| `ComparatorProperties.IgnoreCaseNeedsCoercion` | src/ScalarComparator.php:62-70 | when no string cast happens, `ignoreCase` has no effect |
| `ComparatorProperties.StringAndBoolAreNotCoerced` | src/ScalarComparator.php:62 | a string paired with a bool, in either order, is never cast |
| `ComparatorProperties.BoolAgainstString` | src/ScalarComparator.php:62-97 | a bool against a string is equal exactly when the bool matches the string's truthiness, otherwise the "matches expected" failure |
| `ComparatorProperties.AcceptedValuesEqualThemselves` | src/ScalarComparator.php:54-98 | every accepted non-float value compares equal to itself |
| `ComparatorProperties.IntAgainstNonNumericString` | src/ScalarComparator.php:60-64 | an integer never equals a non-numeric string, in either order (`0` against "Foobar" fails) |
| `ComparatorProperties.IntAgainstItsNumeral` | src/ScalarComparator.php:62-97 | an integer equals the string of its own numeral, with or without `ignoreCase` |
| `ComparatorProperties.IntegerNumeralsEqualExactlyForEqualIntegers` | src/ScalarComparator.php:72-81 | two original strings that are integer numerals compare equal, case-sensitively, exactly when the integers are equal |
| `ComparatorProperties.StringAgainstStringableObject` | src/ScalarComparator.php:62-97 | a string against an object with `__toString` is equal, in either order, exactly when the string and the object's text are identical after the optional lower-casing, unless both compared texts are numeric (then the host's numeric comparison decides) |
| `ComparatorProperties.StrictStringCheckTakesPrecedence` | src/ScalarComparator.php:72-83 | "1" and "1.0" are loosely equal, yet as two original strings they fail with the "two strings are equal" failure |
| `ComparatorProperties.NullPairs` | src/ScalarComparator.php:36-37 | null is accepted with null and with 5 in either order; null equals null and 0 but not 5 |
| `ComparatorProperties.StringsDifferingInCase` | src/ScalarComparator.php:72-81 | "Foo" against "foo" fails with both exported originals, `identical` false and "Failed asserting that two strings are equal." |
| `ComparatorProperties.StringsDifferingInCaseIgnored` | src/ScalarComparator.php:66-69 | with `ignoreCase` and ASCII lower-casing, "Foo" equals "foo" |
| `ComparatorProperties.ZeroAgainstNonNumericString` | src/ScalarComparator.php:83-96 | 0 against "abc" fails with empty diff strings and "Failed asserting that <export "abc"> matches expected <export 0>." |
| `ComparatorProperties.BooleanExemption` | src/ScalarComparator.php:62 | true equals "1" and "abc", false equals "0", and true against "0" fails |

## Left out

- The exporter (`SebastianBergmann\Exporter\Exporter`) is not part of this model. `Host.exporter` stands for it, as a total function.
- `mb_strtolower` with UTF-8 case mapping is a library call. `Host.lower` stands for it. Only its behaviour on ASCII text (`LowersAscii`) is ever assumed, and only in `StringsDifferingInCaseIgnored`.
- Floats are opaque bit patterns. Their `(string)` cast (which depends on the `precision` setting) is `Host.floatToString`. Every `==` cell involving a float other than against a bool or null is `Host.otherLoose`, and this includes NAN being unequal to itself.
- Comparing two numeric strings as numbers (for example "1" == "1.0") is `Host.sameNumber`. The model itself decides only that identical strings are equal and that non-numeric strings compare as text.
- `==` between objects, arrays, and an object or array against a number or string is `Host.otherLoose`. Against a bool or null these compare by truthiness, which the model defines.
- PHP integers are 64-bit. The model uses unbounded integers, because the comparator never does arithmetic on them.
- PHP strings are byte strings. The model uses sequences of characters.
- The warning PHP emits when an array is cast to the string "Array" is not modelled. Arrays are never accepted, so the comparator is not dispatched on them.
- Resources (neither scalar nor null, so never accepted) are not a value kind here.
- A `__toString` method that throws is not modelled. `Obj.text` is the text it returns, always.
- `throw` is modelled as the `Outcome` value rather than as control flow.
- The parent `Comparator` class, the comparator factory that dispatches to the first accepting comparator, and the other comparators are not part of this model.
- ComparatorProperties.IntAgainstNonNumericString: stated for case-sensitive comparison only. With `ignoreCase` the result depends on what `mb_strtolower` does to the non-numeric string, and the model leaves that function abstract.
