# Temperature converter, modelled in Dafny

A model of `TemperatureConverter`, a stateless utility that converts
temperatures between the Celsius, Fahrenheit and Kelvin scales. It holds
three absolute-zero constants (-273.15 °C, -459.67 °F, 0 K) and offers:

- six pairwise conversions, each of which refuses an input strictly below the
  source scale's absolute zero (Fahrenheit→Kelvin and Kelvin→Fahrenheit go by
  way of Celsius);
- a generic `convert(value, from_unit, to_unit)` that checks that the value is
  numeric, upper-cases both unit symbols, rejects an invalid source symbol
  before looking at the target, returns the value unchanged when both units
  are equal and otherwise dispatches through a six-entry table;
- a boundary predicate `is_below_absolute_zero(value, unit)`.

The source is pure (no mutable state, no loops), so the model is functions and
lemmas in three modules:

- `units.dfy` — module `Units`: the unit enumeration, ASCII upper-casing of a
  unit string, and the parse of a normalised string into a unit.
- `converter.dfy` — module `Converter`: the constants, the six conversions,
  the conversion table, the dispatcher and the boundary predicate. Errors are
  values of `ConversionError` (`BelowAbsoluteZero(unit)`,
  `InvalidSourceUnit`, `InvalidTargetUnit`, `InvalidUnit`, `NotNumeric`)
  carried by a `Result`. The dispatcher's argument is a `Value` (a number, a
  piece of text, or nothing) so that its type check keeps its place in front
  of the unit checks.
- `properties.dfy` — module `ConverterProperties`: an independent reference
  that maps every scale to and from Kelvin, and the lemmas that relate the
  conversions, the dispatcher and the predicate to it and to each other.

Temperatures are exact `real`s, so round trips and agreement across scales are
stated as equalities, not as tolerances.

In the source every failure it raises itself, other than the type check, is
the same exception type (`ValueError`), told apart only by its message; the model gives each
message its own error kind. In particular an invalid source symbol and an
invalid target symbol are two different kinds, as the two messages of
`convert` are, and the boundary predicate's unknown-symbol failure is a third.

## Model

| member | source | states |
|---|---|---|
| `Units.Symbol` | temperature_converter.py:168-172 | each unit's symbol is an upper-case letter and one of the accepted symbols |
| `Units.ValidSymbolsAreSymbols` | temperature_converter.py:135 | the accepted set {C, F, K} is exactly the set of the three units' symbols |
| `Units.Upper` | temperature_converter.py:132-133 | upper-casing keeps the length and upper-cases every character (ASCII letters) |
| `Units.UpperChar` | temperature_converter.py:132-133 | a lower-case ASCII letter becomes its capital; any other character is kept; the result is never lower-case |
| `Units.UpperIdempotent` | temperature_converter.py:132-133 | upper-casing twice is upper-casing once |
| `Units.SymbolInjective` | temperature_converter.py:142 | two valid normalised symbols are equal exactly when they name the same unit |
| `Units.ParseUnit` | temperature_converter.py:135-136 | a unit parses exactly when its upper-cased form is the one-character symbol of that unit; otherwise no unit matches |
| `Units.ParseUnitSpellings` | temperature_converter.py:132-136 | the accepted spellings of a unit are exactly its upper- and lower-case one-character symbols |
| `Units.ParseUnitCaseInsensitive` | temperature_converter.py:166 | a unit string and its upper-cased form parse to the same result |
| `Converter.AbsoluteZero` | temperature_converter.py:17-21 | the thresholds -273.15, -459.67, 0.0 by scale: none is above 0, and only Kelvin's is 0 |
| `Converter.AbsoluteZerosCoincide` | temperature_converter.py:17-21 | the three constants name one temperature: the C→F, F→C, C→K and K→C formulas map each onto the others exactly |
| `Converter.CelsiusToFahrenheit` | temperature_converter.py:29-42 | fails, naming Celsius, exactly below -273.15; a result is never below -459.67 |
| `Converter.CelsiusToKelvin` | temperature_converter.py:44-57 | fails, naming Celsius, exactly below -273.15; a result is never below 0 |
| `Converter.FahrenheitToCelsius` | temperature_converter.py:59-72 | fails, naming Fahrenheit, exactly below -459.67; a result is never below -273.15 |
| `Converter.FahrenheitToKelvin` | temperature_converter.py:74-86 | fails, naming Fahrenheit, exactly below -459.67; a result is never below 0 |
| `Converter.KelvinToCelsius` | temperature_converter.py:88-101 | fails, naming Kelvin, exactly below 0; a result is never below -273.15 |
| `Converter.KelvinToFahrenheit` | temperature_converter.py:103-115 | fails, naming Kelvin, exactly below 0; a result is never below -459.67 |
| `Converter.Apply` | temperature_converter.py:146-156 | each table entry fails exactly below its source scale's absolute zero and never yields a value below its target scale's absolute zero |
| `Converter.Lookup` | temperature_converter.py:146-155 | the table has an entry exactly for the ordered pairs of distinct units, and that entry converts from the first to the second |
| `Converter.Convert` | temperature_converter.py:117-156 | non-number first, then an invalid upper-cased source, then an invalid upper-cased target; equal normalised units return the value; success needs a number and two valid symbols |
| `Converter.IsBelowAbsoluteZero` | temperature_converter.py:158-175 | fails exactly for an upper-cased symbol other than C, F, K; otherwise the strict comparison with -273.15, -459.67 or 0 |
| `ConverterProperties.ToKelvin` | temperature_converter.py:17-21 | an independent reference definition, not a member of the source: the map into Kelvin is non-negative exactly from the scale's absolute zero up, and sends that zero to 0 |
| `ConverterProperties.FromKelvin` | temperature_converter.py:17-21 | an independent reference definition, not a member of the source: the map out of Kelvin reaches the scale's absolute zero exactly from 0 K up |
| `ConverterProperties.KelvinInverse` | temperature_converter.py:17-21 | a check on the reference definitions themselves: the maps into and out of Kelvin undo each other on every scale |
| `ConverterProperties.KelvinStrictlyIncreasing` | temperature_converter.py:17-21 | a check on the reference definitions themselves: the map into Kelvin keeps order strictly on every scale |
| `ConverterProperties.ApplyMatchesReference` | temperature_converter.py:29-115 | every one of the six conversions equals the guarded conversion through Kelvin |
| `ConverterProperties.ThresholdGuard` | temperature_converter.py:39-112 | the threshold itself is accepted, and every conversion maps the source scale's absolute zero exactly onto the target's |
| `ConverterProperties.BoundaryValuesAccepted` | unit_tests.py:147-169 | -273.15 °C → 0 K, -459.67 °F → 0 K and 0 K → -273.15 °C succeed |
| `ConverterProperties.BelowZeroRejected` | unit_tests.py:123-145 | -300 °C, -500 °F and -1 K are rejected with the source scale named |
| `ConverterProperties.FixedPoints` | unit_tests.py:37-119 | 0↦32, 100↦212, -40↦-40 (C→F); 32↦0, 212↦100 (F→C); 0↦273.15 (C→K); 293.15↦20 (K→C); 32↦273.15 (F→K); 373.15↦212 (K→F), exactly |
| `ConverterProperties.CelsiusFahrenheitCrossover` | unit_tests.py:53-59 | -40 is the only Celsius value that C→F returns unchanged (below -273.15 the conversion fails) |
| `ConverterProperties.CelsiusFahrenheitRoundTrip` | unit_tests.py:237-245 | for every c ≥ -273.15, C→F→C returns c exactly |
| `ConverterProperties.KelvinCelsiusRoundTrip` | unit_tests.py:247-255 | for every k ≥ 0, K→C→K returns k exactly |
| `ConverterProperties.ApplyRoundTrip` | temperature_converter.py:29-115 | every conversion is undone exactly by the conversion for the reversed pair |
| `ConverterProperties.FahrenheitToKelvinComposes` | temperature_converter.py:82-86 | past its own guard, F→K's inner steps never fail and it equals (f + 459.67)·5/9 |
| `ConverterProperties.KelvinToFahrenheitComposes` | temperature_converter.py:111-115 | past its own guard, K→F's inner steps never fail and it equals k·9/5 - 459.67 |
| `ConverterProperties.ApplyStrictlyIncreasing` | temperature_converter.py:42-101 | every conversion keeps order strictly |
| `ConverterProperties.ValidSymbolsParse` | temperature_converter.py:135-136 | the membership test in the valid-symbol set agrees with the parse |
| `ConverterProperties.ConvertCaseInsensitive` | temperature_converter.py:132-139 | the dispatcher gives the same result, errors included, for a unit symbol and its upper-cased form |
| `ConverterProperties.ConvertValidationOrder` | temperature_converter.py:128-139 | validation precedes arithmetic: an absolute-zero failure only happens with a number and two valid symbols |
| `ConverterProperties.ConvertSameUnit` | temperature_converter.py:142-143 | equal units return the value unchanged, with no absolute-zero check |
| `ConverterProperties.ConvertOutputBound` | temperature_converter.py:142-156 | across distinct units a successful result is never below the target scale's absolute zero; only the equal-units path can return such a value |
| `ConverterProperties.ConvertDistinctUnits` | temperature_converter.py:145-156 | distinct units run exactly the pairwise conversion of that pair |
| `ConverterProperties.ConvertMatchesReference` | temperature_converter.py:117-156 | with valid symbols the dispatcher is the identity on equal units and otherwise the guarded conversion through Kelvin |
| `ConverterProperties.ConvertRoundTrip` | temperature_converter.py:117-156 | a successful conversion converted back returns the original value |
| `ConverterProperties.ConvertTransitive` | temperature_converter.py:117-156 | converting through any intermediate scale equals converting directly, for every final symbol, errors included |
| `ConverterProperties.ConvertExamples` | unit_tests.py:173-233 | the dispatcher's test cases: C→F, identity, lower-case symbols, invalid source 'X', invalid target 'Z', text and absent values |
| `ConverterProperties.IsBelowAbsoluteZeroMeaning` | temperature_converter.py:166-173 | for a valid symbol the predicate is "below the scale's absolute zero", i.e. below 0 K |
| `ConverterProperties.GuardAgreesWithPredicate` | temperature_converter.py:158-175 | a conversion from a scale fails exactly when the predicate holds for that scale |
| `ConverterProperties.IsBelowAbsoluteZeroExamples` | unit_tests.py:257-279 | -300 °C is below, 0 °C and 100 K are not, an unknown symbol is an error |

## Left out

- Floating point: values are exact reals, so the models of the conversions are
  exact where the source rounds to the nearest double; the tolerances of the
  test suite have no counterpart.
- NaN and infinities are not modelled. In the source a NaN fails every
  comparison, so `celsius_to_fahrenheit(nan)` and `convert(nan, 'C', 'F')`
  return NaN instead of raising; the output bounds proved here do not hold of
  NaN. An infinite input passes the guards (or fails them) as its sign says and
  yields an infinite result.
- The six pairwise conversions and `is_below_absolute_zero` have no type check
  of their own: given a non-number (for example `None`) their `<` guard raises
  `TypeError`. Their `real` parameters cannot express such an argument, so that
  failure is not modelled; only `convert` takes a dynamically typed `Value`.
- `OverflowError` is not modelled: an integer too large for a double (for
  example `10**400`) makes the arithmetic of the conversions raise, where the
  model, over unbounded reals, returns a result.
- Integers versus floats: an integer argument is modelled as the real of the
  same value; the source returns an integer unchanged on the equal-units path.
- Python booleans, which pass the numeric check because they are integers,
  are not distinguished from numbers.
- Unit upper-casing covers ASCII letters only, not the full Unicode rules of
  `str.upper()`; a non-string unit (which fails with `AttributeError`) cannot
  be expressed in the typed signatures.
- Error messages are modelled by their kind and the offending normalised
  symbol, not by their text.
- The constructor `__init__` does nothing and has no counterpart.
