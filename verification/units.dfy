/**
 * Temperature unit symbols.
 *
 * The converter accepts a unit as a free-form string, upper-cases it and then
 * compares it with the three symbols 'C', 'F' and 'K'. This module models the
 * upper-casing (ASCII letters only) and the parse into a closed enumeration.
 */
module Units {

  datatype Option<T> = None | Some(value: T)

  /** The three temperature scales the converter knows. */
  datatype Unit = Celsius | Fahrenheit | Kelvin

  /** The symbols the converter accepts once they are upper-cased. */
  const ValidSymbols: set<string> := {"C", "F", "K"}

  /** The canonical (upper-case) symbol of a unit. */
  function Symbol(u: Unit): (c: char)
    ensures 'A' <= c <= 'Z'
    ensures [c] in ValidSymbols
  {
    match u
    case Celsius => 'C'
    case Fahrenheit => 'F'
    case Kelvin => 'K'
  }

  /** Distinct units have distinct symbols, so a symbol names at most one unit. */
  lemma SymbolInjective(u: Unit, v: Unit)
    ensures Symbol(u) == Symbol(v) <==> u == v
  {
  }

  /** The valid symbols are exactly the symbols of the three units. */
  lemma ValidSymbolsAreSymbols(s: string)
    ensures s in ValidSymbols <==> exists u :: s == [Symbol(u)]
  {
    if s == "C" { assert s == [Symbol(Celsius)]; }
    if s == "F" { assert s == [Symbol(Fahrenheit)]; }
    if s == "K" { assert s == [Symbol(Kelvin)]; }
  }

  predicate IsAsciiLower(ch: char) {
    'a' <= ch <= 'z'
  }

  /** Upper-case one character: ASCII 'a'..'z' map to 'A'..'Z', everything else is kept. */
  function UpperChar(ch: char): (r: char)
    ensures IsAsciiLower(ch) ==> 'A' <= r <= 'Z' && r as int == ch as int - 32
    ensures !IsAsciiLower(ch) ==> r == ch
    ensures !IsAsciiLower(r)
  {
    if IsAsciiLower(ch) then (ch as int - 32) as char else ch
  }

  /** The lower-case spelling of a symbol, which the converter accepts as well. */
  function LowerSymbol(u: Unit): (c: char)
    ensures IsAsciiLower(c) && UpperChar(c) == Symbol(u)
  {
    match u
    case Celsius => 'c'
    case Fahrenheit => 'f'
    case Kelvin => 'k'
  }

  /** String upper-casing: every character is upper-cased, the length is kept. */
  function Upper(s: string): (r: string)
    ensures |r| == |s|
    ensures forall i :: 0 <= i < |s| ==> r[i] == UpperChar(s[i])
  {
    if s == [] then [] else [UpperChar(s[0])] + Upper(s[1..])
  }

  /** Upper-casing twice is the same as upper-casing once. */
  lemma UpperIdempotent(s: string)
    ensures Upper(Upper(s)) == Upper(s)
  {
  }

  /**
   * The normalised string is a valid unit symbol: 'C', 'F' or 'K' after
   * upper-casing, and nothing else (a longer string is never a symbol).
   */
  function ParseUnit(s: string): (r: Option<Unit>)
    ensures r.Some? ==> Upper(s) == [Symbol(r.value)]
    ensures r.None? ==> forall u :: Upper(s) != [Symbol(u)]
  {
    var t := Upper(s);
    if t == ['C'] then Some(Celsius)
    else if t == ['F'] then Some(Fahrenheit)
    else if t == ['K'] then Some(Kelvin)
    else None
  }

  /**
   * The accepted spellings: a unit string parses to u exactly when it is the
   * one-character upper- or lower-case symbol of u.
   */
  lemma ParseUnitSpellings(s: string, u: Unit)
    ensures ParseUnit(s) == Some(u) <==> s == [Symbol(u)] || s == [LowerSymbol(u)]
  {
  }

  /** Parsing ignores case: a string and its upper-cased form parse alike. */
  lemma ParseUnitCaseInsensitive(s: string)
    ensures ParseUnit(Upper(s)) == ParseUnit(s)
  {
  }
}
