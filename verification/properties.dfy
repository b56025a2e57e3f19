/**
 * What the converter promises, stated over the model in Converter:
 * thresholds, round trips, the documented fixed points, the composed
 * conversions, the output bound, the dispatcher's behaviour and its
 * agreement with an independent reference that goes through Kelvin.
 */
module ConverterProperties {
  import opened Units
  import opened Converter

  // ---------------------------------------------------------------------
  // An independent reference: every scale is an affine image of Kelvin.
  // ---------------------------------------------------------------------

  /** A temperature in scale u, expressed in Kelvin. */
  function ToKelvin(u: Unit, x: real): (k: real)
    ensures k >= 0.0 <==> x >= AbsoluteZero(u)
    ensures x == AbsoluteZero(u) ==> k == 0.0
  {
    match u
    case Celsius => x + 273.15
    case Fahrenheit => (x + 459.67) * 5.0 / 9.0
    case Kelvin => x
  }

  /** A temperature in Kelvin, expressed in scale u. */
  function FromKelvin(u: Unit, k: real): (x: real)
    ensures x >= AbsoluteZero(u) <==> k >= 0.0
    ensures k == 0.0 ==> x == AbsoluteZero(u)
  {
    match u
    case Celsius => k - 273.15
    case Fahrenheit => k * 9.0 / 5.0 - 459.67
    case Kelvin => k
  }

  /** The two reference maps are inverse to each other. */
  lemma KelvinInverse(u: Unit, x: real, k: real)
    ensures FromKelvin(u, ToKelvin(u, x)) == x
    ensures ToKelvin(u, FromKelvin(u, k)) == k
  {
  }

  /** The reference maps keep order strictly: every scale runs the same way. */
  lemma KelvinStrictlyIncreasing(u: Unit, x: real, y: real)
    ensures x < y <==> ToKelvin(u, x) < ToKelvin(u, y)
  {
  }

  /**
   * Every table entry agrees with the reference: after its guard, it equals
   * going to Kelvin from the source scale and from Kelvin to the target scale.
   */
  lemma ApplyMatchesReference(op: Conversion, x: real)
    ensures Apply(op, x) ==
      if x < AbsoluteZero(op.Source()) then Err(BelowAbsoluteZero(op.Source()))
      else Ok(FromKelvin(op.Target(), ToKelvin(op.Source(), x)))
  {
  }

  // ---------------------------------------------------------------------
  // The pairwise conversions.
  // ---------------------------------------------------------------------

  /**
   * The threshold itself is accepted, and every conversion maps the source
   * scale's absolute zero exactly onto the target scale's.
   */
  lemma ThresholdGuard(op: Conversion)
    ensures Apply(op, AbsoluteZero(op.Source())) == Ok(AbsoluteZero(op.Target()))
  {
  }

  /** The boundary inputs of the test suite are accepted. */
  lemma BoundaryValuesAccepted()
    ensures CelsiusToKelvin(-273.15) == Ok(0.0)
    ensures FahrenheitToKelvin(-459.67) == Ok(0.0)
    ensures KelvinToCelsius(0.0) == Ok(-273.15)
  {
  }

  /** The out-of-range inputs of the test suite are rejected. */
  lemma BelowZeroRejected()
    ensures CelsiusToFahrenheit(-300.0) == Err(BelowAbsoluteZero(Celsius))
    ensures FahrenheitToCelsius(-500.0) == Err(BelowAbsoluteZero(Fahrenheit))
    ensures KelvinToCelsius(-1.0) == Err(BelowAbsoluteZero(Kelvin))
  {
  }

  /** Reference points of the formulas, exactly. */
  lemma FixedPoints()
    ensures CelsiusToFahrenheit(0.0) == Ok(32.0)
    ensures CelsiusToFahrenheit(100.0) == Ok(212.0)
    ensures CelsiusToFahrenheit(-40.0) == Ok(-40.0)
    ensures FahrenheitToCelsius(32.0) == Ok(0.0)
    ensures FahrenheitToCelsius(212.0) == Ok(100.0)
    ensures CelsiusToKelvin(0.0) == Ok(273.15)
    ensures KelvinToCelsius(293.15) == Ok(20.0)
    ensures FahrenheitToKelvin(32.0) == Ok(273.15)
    ensures KelvinToFahrenheit(373.15) == Ok(212.0)
  {
  }

  /** -40 is the only temperature that reads the same in Celsius and Fahrenheit. */
  lemma CelsiusFahrenheitCrossover(c: real)
    ensures CelsiusToFahrenheit(c) == Ok(c) <==> c == -40.0
  {
  }

  /** Celsius to Fahrenheit and back gives the input back, exactly. */
  lemma CelsiusFahrenheitRoundTrip(c: real)
    requires c >= AbsoluteZeroCelsius
    ensures CelsiusToFahrenheit(c).Ok?
    ensures FahrenheitToCelsius(CelsiusToFahrenheit(c).value) == Ok(c)
  {
  }

  /** Kelvin to Celsius and back gives the input back, exactly. */
  lemma KelvinCelsiusRoundTrip(k: real)
    requires k >= AbsoluteZeroKelvin
    ensures KelvinToCelsius(k).Ok?
    ensures CelsiusToKelvin(KelvinToCelsius(k).value) == Ok(k)
  {
  }

  /** Every table entry is undone by the entry for the reversed pair. */
  lemma ApplyRoundTrip(op: Conversion, back: Conversion, x: real)
    requires back.Source() == op.Target() && back.Target() == op.Source()
    requires x >= AbsoluteZero(op.Source())
    ensures Apply(op, x).Ok?
    ensures Apply(back, Apply(op, x).value) == Ok(x)
  {
  }

  /**
   * The two composed conversions: once the outer guard passes the inner ones
   * never fire, and the result is the composition of the two steps.
   */
  lemma FahrenheitToKelvinComposes(f: real)
    requires f >= AbsoluteZeroFahrenheit
    ensures FahrenheitToCelsius(f).Ok?
    ensures CelsiusToKelvin(FahrenheitToCelsius(f).value).Ok?
    ensures FahrenheitToKelvin(f) == CelsiusToKelvin(FahrenheitToCelsius(f).value)
    ensures FahrenheitToKelvin(f) == Ok((f + 459.67) * 5.0 / 9.0)
  {
  }

  lemma KelvinToFahrenheitComposes(k: real)
    requires k >= AbsoluteZeroKelvin
    ensures KelvinToCelsius(k).Ok?
    ensures CelsiusToFahrenheit(KelvinToCelsius(k).value).Ok?
    ensures KelvinToFahrenheit(k) == CelsiusToFahrenheit(KelvinToCelsius(k).value)
    ensures KelvinToFahrenheit(k) == Ok(k * 9.0 / 5.0 - 459.67)
  {
  }

  /** Conversions keep order strictly, so they are one-to-one. */
  lemma ApplyStrictlyIncreasing(op: Conversion, x: real, y: real)
    requires Apply(op, x).Ok? && Apply(op, y).Ok?
    ensures x < y <==> Apply(op, x).value < Apply(op, y).value
  {
  }

  // ---------------------------------------------------------------------
  // The dispatcher.
  // ---------------------------------------------------------------------

  /** The symbols that upper-case into the valid set are exactly the parseable ones. */
  lemma ValidSymbolsParse(s: string)
    ensures Upper(s) in ValidSymbols <==> ParseUnit(s).Some?
  {
  }

  /** Lower-case and upper-case symbols select the same behaviour, errors included. */
  lemma ConvertCaseInsensitive(value: Value, fromUnit: string, toUnit: string)
    ensures Convert(value, Upper(fromUnit), Upper(toUnit)) == Convert(value, fromUnit, toUnit)
  {
    UpperIdempotent(fromUnit);
    UpperIdempotent(toUnit);
    ParseUnitCaseInsensitive(fromUnit);
    ParseUnitCaseInsensitive(toUnit);
  }

  /**
   * All validation comes before any arithmetic: the absolute-zero check is
   * only reached with a number and two valid symbols.
   */
  lemma ConvertValidationOrder(value: Value, fromUnit: string, toUnit: string)
    ensures Convert(value, fromUnit, toUnit).Err? &&
            Convert(value, fromUnit, toUnit).error.BelowAbsoluteZero? ==>
              value.Number? && ParseUnit(fromUnit).Some? && ParseUnit(toUnit).Some?
  {
  }

  /** Equal units: the value comes back unchanged, even below absolute zero. */
  lemma ConvertSameUnit(x: real, fromUnit: string, toUnit: string, u: Unit)
    requires ParseUnit(fromUnit) == Some(u) && ParseUnit(toUnit) == Some(u)
    ensures Convert(Number(x), fromUnit, toUnit) == Ok(x)
  {
  }

  /**
   * Only the equal-units path can return a value below the target scale's
   * absolute zero: across distinct units the output bound holds.
   */
  lemma ConvertOutputBound(x: real, fromUnit: string, toUnit: string, u: Unit, v: Unit)
    requires ParseUnit(fromUnit) == Some(u) && ParseUnit(toUnit) == Some(v) && u != v
    ensures Convert(Number(x), fromUnit, toUnit).Ok? ==>
              Convert(Number(x), fromUnit, toUnit).value >= AbsoluteZero(v)
  {
  }

  /** Distinct units: the dispatcher runs exactly the pairwise conversion for the pair. */
  lemma ConvertDistinctUnits(x: real, fromUnit: string, toUnit: string, op: Conversion)
    requires ParseUnit(fromUnit) == Some(op.Source()) && ParseUnit(toUnit) == Some(op.Target())
    ensures Convert(Number(x), fromUnit, toUnit) == Apply(op, x)
  {
  }

  /**
   * The dispatcher against the Kelvin reference: for valid symbols it is the
   * identity on equal units and otherwise the guarded reference conversion.
   */
  lemma ConvertMatchesReference(x: real, fromUnit: string, toUnit: string, u: Unit, v: Unit)
    requires ParseUnit(fromUnit) == Some(u) && ParseUnit(toUnit) == Some(v)
    ensures Convert(Number(x), fromUnit, toUnit) ==
      if u == v then Ok(x)
      else if x < AbsoluteZero(u) then Err(BelowAbsoluteZero(u))
      else Ok(FromKelvin(v, ToKelvin(u, x)))
  {
  }

  /** Converting there and back through the dispatcher gives the value back. */
  lemma ConvertRoundTrip(x: real, a: string, b: string)
    requires Convert(Number(x), a, b).Ok?
    ensures Convert(Number(Convert(Number(x), a, b).value), b, a) == Ok(x)
  {
  }

  /** Converting in two steps through any scale equals converting directly. */
  lemma ConvertTransitive(x: real, a: string, b: string, c: string)
    requires Convert(Number(x), a, b).Ok?
    ensures Convert(Number(Convert(Number(x), a, b).value), b, c) == Convert(Number(x), a, c)
  {
  }

  /** The dispatcher cases of the test suite. */
  lemma ConvertExamples()
    ensures Convert(Number(100.0), "C", "F") == Ok(212.0)
    ensures Convert(Number(25.0), "C", "C") == Ok(25.0)
    ensures Convert(Number(-500.0), "C", "C") == Ok(-500.0)
    ensures Convert(Number(0.0), "c", "f") == Ok(32.0)
    ensures Convert(Number(273.15), "k", "c") == Ok(0.0)
    ensures Convert(Number(100.0), "X", "F") == Err(InvalidSourceUnit("X"))
    ensures Convert(Number(100.0), "C", "Z") == Err(InvalidTargetUnit("Z"))
    ensures Convert(Text("100"), "C", "F") == Err(NotNumeric)
    ensures Convert(Absent, "C", "F") == Err(NotNumeric)
  {
    ParseUnitSpellings("C", Celsius);
    ParseUnitSpellings("F", Fahrenheit);
    ParseUnitSpellings("c", Celsius);
    ParseUnitSpellings("f", Fahrenheit);
    ParseUnitSpellings("k", Kelvin);
    assert Upper("X") == "X";
    assert Upper("Z") == "Z";
  }

  // ---------------------------------------------------------------------
  // The boundary predicate.
  // ---------------------------------------------------------------------

  /** The predicate is the strict comparison with the named scale's threshold. */
  lemma IsBelowAbsoluteZeroMeaning(x: real, unit: string, u: Unit)
    requires ParseUnit(unit) == Some(u)
    ensures IsBelowAbsoluteZero(x, unit) == Ok(x < AbsoluteZero(u))
    ensures IsBelowAbsoluteZero(x, unit) == Ok(ToKelvin(u, x) < 0.0)
  {
  }

  /**
   * The predicate and the conversions agree: a conversion from a scale fails
   * exactly when the predicate holds for the input in that scale.
   */
  lemma GuardAgreesWithPredicate(op: Conversion, x: real, unit: string)
    requires ParseUnit(unit) == Some(op.Source())
    ensures Apply(op, x).Err? <==> IsBelowAbsoluteZero(x, unit) == Ok(true)
  {
  }

  /** The predicate cases of the test suite. */
  lemma IsBelowAbsoluteZeroExamples()
    ensures IsBelowAbsoluteZero(-300.0, "C") == Ok(true)
    ensures IsBelowAbsoluteZero(0.0, "C") == Ok(false)
    ensures IsBelowAbsoluteZero(100.0, "K") == Ok(false)
    ensures IsBelowAbsoluteZero(0.0, "x") == Err(InvalidUnit("X"))
  {
  }
}
