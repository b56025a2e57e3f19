/**
 * The temperature converter: three absolute-zero constants, six guarded
 * pairwise conversions, a generic dispatcher over unit symbols and a
 * boundary predicate.
 *
 * Temperatures are exact reals; the source works on binary floating point.
 */
module Converter {
  import opened Units

  /** Why a conversion or check fails. */
  datatype ConversionError =
    | BelowAbsoluteZero(unit: Unit)   // the input is below the source scale's absolute zero
    | InvalidSourceUnit(symbol: string) // the normalised source symbol is not C, F or K
    | InvalidTargetUnit(symbol: string) // the normalised target symbol is not C, F or K
    | InvalidUnit(symbol: string)       // the normalised symbol given to the boundary check
    | NotNumeric                        // the value handed to the dispatcher is not a number

  datatype Result<T> = Ok(value: T) | Err(error: ConversionError)

  /**
   * A dynamically typed argument, as the dispatcher may receive it: a number
   * (integer or float), a piece of text, or nothing at all.
   */
  datatype Value = Number(n: real) | Text(s: string) | Absent

  const AbsoluteZeroCelsius: real := -273.15
  const AbsoluteZeroFahrenheit: real := -459.67
  const AbsoluteZeroKelvin: real := 0.0

  /**
   * The absolute-zero threshold of a scale, in that scale. Kelvin is the
   * only scale whose zero is absolute zero; the others lie below it.
   */
  function AbsoluteZero(u: Unit): (z: real)
    ensures z <= 0.0
    ensures z == 0.0 <==> u == Kelvin
  {
    match u
    case Celsius => AbsoluteZeroCelsius
    case Fahrenheit => AbsoluteZeroFahrenheit
    case Kelvin => AbsoluteZeroKelvin
  }

  /**
   * The three thresholds name one and the same temperature: each of them is
   * what the conversion formulas give for any other.
   */
  lemma AbsoluteZerosCoincide()
    ensures AbsoluteZero(Fahrenheit) == AbsoluteZero(Celsius) * 9.0 / 5.0 + 32.0
    ensures AbsoluteZero(Celsius) == (AbsoluteZero(Fahrenheit) - 32.0) * 5.0 / 9.0
    ensures AbsoluteZero(Kelvin) == AbsoluteZero(Celsius) + 273.15
    ensures AbsoluteZero(Celsius) == AbsoluteZero(Kelvin) - 273.15
  {
  }

  function CelsiusToFahrenheit(c: real): (r: Result<real>)
    ensures r.Err? <==> c < AbsoluteZeroCelsius
    ensures r.Err? ==> r.error == BelowAbsoluteZero(Celsius)
    ensures r.Ok? ==> r.value >= AbsoluteZeroFahrenheit
  {
    if c < AbsoluteZeroCelsius then Err(BelowAbsoluteZero(Celsius))
    else Ok(c * 9.0 / 5.0 + 32.0)
  }

  function CelsiusToKelvin(c: real): (r: Result<real>)
    ensures r.Err? <==> c < AbsoluteZeroCelsius
    ensures r.Err? ==> r.error == BelowAbsoluteZero(Celsius)
    ensures r.Ok? ==> r.value >= AbsoluteZeroKelvin
  {
    if c < AbsoluteZeroCelsius then Err(BelowAbsoluteZero(Celsius))
    else Ok(c + 273.15)
  }

  function FahrenheitToCelsius(f: real): (r: Result<real>)
    ensures r.Err? <==> f < AbsoluteZeroFahrenheit
    ensures r.Err? ==> r.error == BelowAbsoluteZero(Fahrenheit)
    ensures r.Ok? ==> r.value >= AbsoluteZeroCelsius
  {
    if f < AbsoluteZeroFahrenheit then Err(BelowAbsoluteZero(Fahrenheit))
    else Ok((f - 32.0) * 5.0 / 9.0)
  }

  /** Fahrenheit to Kelvin by way of Celsius, after its own guard. */
  function FahrenheitToKelvin(f: real): (r: Result<real>)
    ensures r.Err? <==> f < AbsoluteZeroFahrenheit
    ensures r.Err? ==> r.error == BelowAbsoluteZero(Fahrenheit)
    ensures r.Ok? ==> r.value >= AbsoluteZeroKelvin
  {
    if f < AbsoluteZeroFahrenheit then Err(BelowAbsoluteZero(Fahrenheit))
    else
      match FahrenheitToCelsius(f)
      case Err(e) => Err(e)
      case Ok(c) => CelsiusToKelvin(c)
  }

  function KelvinToCelsius(k: real): (r: Result<real>)
    ensures r.Err? <==> k < AbsoluteZeroKelvin
    ensures r.Err? ==> r.error == BelowAbsoluteZero(Kelvin)
    ensures r.Ok? ==> r.value >= AbsoluteZeroCelsius
  {
    if k < AbsoluteZeroKelvin then Err(BelowAbsoluteZero(Kelvin))
    else Ok(k - 273.15)
  }

  /** Kelvin to Fahrenheit by way of Celsius, after its own guard. */
  function KelvinToFahrenheit(k: real): (r: Result<real>)
    ensures r.Err? <==> k < AbsoluteZeroKelvin
    ensures r.Err? ==> r.error == BelowAbsoluteZero(Kelvin)
    ensures r.Ok? ==> r.value >= AbsoluteZeroFahrenheit
  {
    if k < AbsoluteZeroKelvin then Err(BelowAbsoluteZero(Kelvin))
    else
      match KelvinToCelsius(k)
      case Err(e) => Err(e)
      case Ok(c) => CelsiusToFahrenheit(c)
  }

  /** The six entries of the dispatcher's conversion table. */
  datatype Conversion = CToF | CToK | FToC | FToK | KToC | KToF {
    function Source(): Unit {
      match this
      case CToF | CToK => Celsius
      case FToC | FToK => Fahrenheit
      case KToC | KToF => Kelvin
    }

    function Target(): Unit {
      match this
      case FToC | KToC => Celsius
      case CToF | KToF => Fahrenheit
      case CToK | FToK => Kelvin
    }
  }

  /** Run the pairwise conversion a table entry stands for. */
  function Apply(op: Conversion, x: real): (r: Result<real>)
    ensures r.Err? <==> x < AbsoluteZero(op.Source())
    ensures r.Err? ==> r.error == BelowAbsoluteZero(op.Source())
    ensures r.Ok? ==> r.value >= AbsoluteZero(op.Target())
  {
    match op
    case CToF => CelsiusToFahrenheit(x)
    case CToK => CelsiusToKelvin(x)
    case FToC => FahrenheitToCelsius(x)
    case FToK => FahrenheitToKelvin(x)
    case KToC => KelvinToCelsius(x)
    case KToF => KelvinToFahrenheit(x)
  }

  /**
   * The conversion table keyed by (source, target). It has an entry for
   * every ordered pair of distinct units and none for a unit paired with itself.
   */
  function Lookup(from: Unit, to: Unit): (r: Option<Conversion>)
    ensures r.Some? <==> from != to
    ensures r.Some? ==> r.value.Source() == from && r.value.Target() == to
  {
    match (from, to)
    case (Celsius, Fahrenheit) => Some(CToF)
    case (Celsius, Kelvin) => Some(CToK)
    case (Fahrenheit, Celsius) => Some(FToC)
    case (Fahrenheit, Kelvin) => Some(FToK)
    case (Kelvin, Celsius) => Some(KToC)
    case (Kelvin, Fahrenheit) => Some(KToF)
    case _ => None
  }

  /**
   * The generic dispatcher. It checks, in this order, that the value is a
   * number, that the upper-cased source symbol is valid and that the
   * upper-cased target symbol is valid. Equal units return the value as it
   * is, without an absolute-zero check; distinct units run the table's entry.
   */
  function Convert(value: Value, fromUnit: string, toUnit: string): (r: Result<real>)
    ensures !value.Number? ==> r == Err(NotNumeric)
    ensures value.Number? && Upper(fromUnit) !in ValidSymbols ==>
              r == Err(InvalidSourceUnit(Upper(fromUnit)))
    ensures value.Number? && Upper(fromUnit) in ValidSymbols && Upper(toUnit) !in ValidSymbols ==>
              r == Err(InvalidTargetUnit(Upper(toUnit)))
    ensures value.Number? && Upper(fromUnit) in ValidSymbols && Upper(toUnit) == Upper(fromUnit) ==>
              r == Ok(value.n)
    ensures r.Ok? ==> value.Number? && Upper(fromUnit) in ValidSymbols && Upper(toUnit) in ValidSymbols
  {
    if !value.Number? then Err(NotNumeric)
    else
      match ParseUnit(fromUnit)
      case None => Err(InvalidSourceUnit(Upper(fromUnit)))
      case Some(src) =>
        match ParseUnit(toUnit)
        case None => Err(InvalidTargetUnit(Upper(toUnit)))
        case Some(dst) =>
          if src == dst then Ok(value.n)
          else Apply(Lookup(src, dst).value, value.n)
  }

  /**
   * Whether a value lies strictly below the absolute zero of the scale the
   * (case-insensitive) symbol names; an unknown symbol is an error.
   */
  function IsBelowAbsoluteZero(value: real, unit: string): (r: Result<bool>)
    ensures r.Err? <==> Upper(unit) !in ValidSymbols
    ensures r.Err? ==> r.error == InvalidUnit(Upper(unit))
    ensures Upper(unit) == "C" ==> r == Ok(value < -273.15)
    ensures Upper(unit) == "F" ==> r == Ok(value < -459.67)
    ensures Upper(unit) == "K" ==> r == Ok(value < 0.0)
  {
    match ParseUnit(unit)
    case Some(u) => Ok(value < AbsoluteZero(u))
    case None => Err(InvalidUnit(Upper(unit)))
  }
}
