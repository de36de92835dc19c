/**
  The conversion engine (utils/converters.py): linear conversion through a
  category's scale factors, and temperature conversion pivoting through
  Celsius.

  The value the caller passes is `Option<real>`: `None` is an input box not
  yet filled in, `Some(v)` a number. Python treats both `None` and `0` as
  false, and both functions return `0.0` for such a value before doing
  anything else.
*/
module Converters {
  import opened Wrappers
  import opened ConversionData

  /** Python's `not value` for the values the engine receives: absent or zero. */
  predicate Falsy(value: Option<real>)
  {
    value.None? || value.value == 0.0
  }

  /**
    The lookups and arithmetic of a linear conversion all succeed: both labels
    are units of the map, both hold numeric factors, and the target's factor
    is not zero. Otherwise Python raises KeyError, TypeError or
    ZeroDivisionError, which `convert_standard` turns into `None`.
  */
  predicate Scalable(units: map<string, UnitValue>, fromUnit: string, toUnit: string)
  {
    && fromUnit in units && units[fromUnit].Factor?
    && toUnit in units && units[toUnit].Factor?
    && units[toUnit].factor != 0.0
  }

  /**
    convert_standard: `value × factor[from] / factor[to]`, with the zero and
    identity shortcuts first, and `None` for every failed lookup or division.
    A successful result is the same quantity expressed in the target unit:
    both sides are worth the same number of base units.
  */
  function ConvertStandard(value: Option<real>, fromUnit: string, toUnit: string, category: Category): (r: Option<real>)
    ensures Falsy(value) ==> r == Some(0.0)
    ensures !Falsy(value) && fromUnit == toUnit ==> r == value
    ensures !Falsy(value) && fromUnit != toUnit ==>
              (r.Some? <==> Scalable(category.units, fromUnit, toUnit))
    ensures !Falsy(value) && fromUnit != toUnit && r.Some? ==>
              r.value * category.units[toUnit].factor == value.value * category.units[fromUnit].factor
  {
    if Falsy(value) then Some(0.0)
    else if fromUnit == toUnit then Some(value.value)
    else
      var units := category.units;
      if fromUnit !in units || !units[fromUnit].Factor? then None
      else
        var valueInBase := value.value * units[fromUnit].factor;
        if toUnit !in units || !units[toUnit].Factor? || units[toUnit].factor == 0.0 then None
        else Some(valueInBase / units[toUnit].factor)
  }

  /** First stage of convert_temperature: the value on the given scale, in Celsius. Any symbol other than "F" or "K" is read as Celsius. */
  function ToCelsius(value: real, sym: string): (c: real)
  {
    if sym == "F" then (value - 32.0) * 5.0 / 9.0
    else if sym == "K" then value - 273.15
    else value
  }

  /** Second stage of convert_temperature: a Celsius value on the given scale. Any symbol other than "F" or "K" is read as Celsius. */
  function FromCelsius(celsius: real, sym: string): (r: real)
  {
    if sym == "F" then celsius * 9.0 / 5.0 + 32.0
    else if sym == "K" then celsius + 273.15
    else celsius
  }

  /** Each pivot stage undoes the other, on every scale. */
  lemma PivotInverse(x: real, sym: string)
    ensures ToCelsius(FromCelsius(x, sym), sym) == x
    ensures FromCelsius(ToCelsius(x, sym), sym) == x
  {
  }

  /**
    convert_temperature: the zero shortcut, the identity shortcut, then an
    affine transform through Celsius. A nonzero input yields the same
    temperature on the target scale; this function has no error path.
  */
  function ConvertTemperature(value: Option<real>, fromSym: string, toSym: string): (r: real)
    ensures Falsy(value) ==> r == 0.0
    ensures !Falsy(value) ==> ToCelsius(r, toSym) == ToCelsius(value.value, fromSym)
  {
    if Falsy(value) then 0.0
    else if fromSym == toSym then value.value
    else
      var celsius := ToCelsius(value.value, fromSym);
      PivotInverse(celsius, toSym);
      FromCelsius(celsius, toSym)
  }

  /** A temperature is determined by its Celsius reading: the contract of ConvertTemperature fixes its result. */
  lemma CelsiusReadingDetermines(x: real, y: real, sym: string)
    requires ToCelsius(x, sym) == ToCelsius(y, sym)
    ensures x == y
  {
  }

  /** Equal symbols give the value back unchanged, whatever the symbol. */
  lemma TemperatureIdentity(v: real, sym: string)
    ensures ConvertTemperature(Some(v), sym, sym) == v
  {
  }

  /** The identity shortcut consults no table: equal labels give back the value, even labels the category lacks. */
  lemma StandardIdentity(v: real, unit: string, category: Category)
    ensures ConvertStandard(Some(v), unit, unit, category) == Some(v)
  {
  }

  /** With positive factors, two units of the category always convert, and sign and zero are kept. */
  lemma LinearTotal(v: real, a: string, b: string, category: Category)
    requires Linear(category) && a in category.units && b in category.units
    ensures ConvertStandard(Some(v), a, b, category).Some?
    ensures var r := ConvertStandard(Some(v), a, b, category).value;
              (r > 0.0 <==> v > 0.0) && (r == 0.0 <==> v == 0.0)
  {
  }

  /** a → b → a gives back the value for every real, zero included. */
  lemma LinearRoundTrip(v: real, a: string, b: string, category: Category)
    requires Linear(category) && a in category.units && b in category.units
    ensures ConvertStandard(ConvertStandard(Some(v), a, b, category), b, a, category) == Some(v)
  {
    LinearTotal(v, a, b, category);
    var w := ConvertStandard(Some(v), a, b, category).value;
    if v != 0.0 && a != b {
      var fa, fb := category.units[a].factor, category.units[b].factor;
      var r := ConvertStandard(Some(w), b, a, category).value;
      assert w * fb == v * fa;
      assert r * fa == w * fb;
      assert r * fa == v * fa;
    }
  }

  /** a → b → c gives the same result as a → c. */
  lemma LinearComposition(v: real, a: string, b: string, c: string, category: Category)
    requires Linear(category)
    requires a in category.units && b in category.units && c in category.units
    ensures ConvertStandard(ConvertStandard(Some(v), a, b, category), b, c, category)
         == ConvertStandard(Some(v), a, c, category)
  {
    LinearTotal(v, a, b, category);
    LinearTotal(v, a, c, category);
    var w := ConvertStandard(Some(v), a, b, category).value;
    LinearTotal(w, b, c, category);
    if v != 0.0 {
      var fa, fb, fc := category.units[a].factor, category.units[b].factor, category.units[c].factor;
      var r := ConvertStandard(Some(w), b, c, category).value;
      var d := ConvertStandard(Some(v), a, c, category).value;
      assert w * fb == v * fa;
      assert r * fc == w * fb;
      assert d * fc == v * fa;
      assert (r - d) * fc == r * fc - d * fc == 0.0;
      assert fc > 0.0;
    }
  }

  /** A symbol other than "F" or "K" converts exactly as "C" does, on either side. */
  lemma UnknownSymbolIsCelsius(v: Option<real>, sym: string, other: string)
    requires sym != "F" && sym != "K"
    ensures ConvertTemperature(v, sym, other) == ConvertTemperature(v, "C", other)
    ensures ConvertTemperature(v, other, sym) == ConvertTemperature(v, other, "C")
  {
  }

  /**
    A temperature round trip s → t → s gives back a nonzero value exactly
    when the intermediate result is nonzero; a zero in between is taken for
    an empty input and the way back yields 0.
  */
  lemma TemperatureRoundTrip(v: real, s: string, t: string)
    requires v != 0.0
    ensures var w := ConvertTemperature(Some(v), s, t);
              ConvertTemperature(Some(w), t, s) == v <==> w != 0.0
  {
  }

  /** s → t → u agrees with s → u whenever the intermediate result is nonzero. */
  lemma TemperatureComposition(v: real, s: string, t: string, u: string)
    requires ConvertTemperature(Some(v), s, t) != 0.0
    ensures ConvertTemperature(Some(ConvertTemperature(Some(v), s, t)), t, u)
         == ConvertTemperature(Some(v), s, u)
  {
  }
}
