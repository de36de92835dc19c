/**
  The engine applied to the registry: the conversions the calculator
  performs on its own unit table, and one entry of that table that does
  not mean what the entries around it mean.
*/
module TableConversions {
  import opened Wrappers
  import opened ConversionData
  import opened Converters

  /** On any linear category of the registry, converting there and back returns the value. */
  lemma RegistryRoundTrip(name: string, a: string, b: string, v: real)
    requires name in Table && name != TemperatureName
    requires a in Table[name].units && b in Table[name].units
    ensures ConvertStandard(Some(v), a, b, Table[name]).Some?
    ensures ConvertStandard(ConvertStandard(Some(v), a, b, Table[name]), b, a, Table[name]) == Some(v)
  {
    LinearCategories(name);
    LinearTotal(v, a, b, Table[name]);
    LinearRoundTrip(v, a, b, Table[name]);
  }

  /** 5 miles are 5 × 1609.34 / 1000 = 8.0467 kilometres with the registry's mile. */
  lemma MileToKilometer()
    ensures ConvertStandard(Some(5.0), "Mile (mi)", "Kilometer (km)", Length) == Some(8.0467)
  {
  }

  /** 1 KB is 1000 bytes and 1 KiB is 1024 bytes: the two prefixes give different answers. */
  lemma KilobyteAndKibibyte()
    ensures ConvertStandard(Some(1.0), "Kilobyte (KB) [10³ B]", "Byte (B)", DataStorage) == Some(1000.0)
    ensures ConvertStandard(Some(1.0), "Kibibyte (KiB) [2¹⁰ B]", "Byte (B)", DataStorage) == Some(1024.0)
    ensures ConvertStandard(Some(8.0), "Bit (b)", "Byte (B)", DataStorage) == Some(1.0)
  {
  }

  /**
    In any registry category, a label the category does not have, as source
    or as target, fails cleanly with None. A zero value or two equal labels
    take the shortcuts first and never reach the lookup.
  */
  lemma UnknownUnitFails(name: string, v: real, a: string, b: string)
    requires name in Table && v != 0.0 && a != b
    requires a !in Table[name].units || b !in Table[name].units
    ensures ConvertStandard(Some(v), a, b, Table[name]) == None
  {
  }

  /** An instance: "Parsec" is not a Length unit, in either direction. */
  lemma ParsecIsNotALength()
    ensures ConvertStandard(Some(1.0), "Parsec", "Meter (m)", Length) == None
    ensures ConvertStandard(Some(1.0), "Meter (m)", "Parsec", Length) == None
  {
  }

  /** Linear conversion on the Temperature category fails for every pair of distinct labels: its values are symbols, not factors. */
  lemma TemperatureLabelsDoNotScale(v: real, a: string, b: string)
    requires v != 0.0 && a != b
    ensures ConvertStandard(Some(v), a, b, Temperature) == None
  {
  }

  /** The symbols stored in the registry drive the Celsius pivot: 100 °C is 212 °F, 32 °F is 0 °C, 373.15 K is 100 °C. */
  lemma TemperatureFixedPoints()
    ensures ConvertTemperature(Some(100.0), Code(C), Code(F)) == 212.0
    ensures ConvertTemperature(Some(32.0), Code(F), Code(C)) == 0.0
    ensures ConvertTemperature(Some(373.15), Code(K), Code(C)) == 100.0
    ensures ConvertTemperature(Some(-40.0), Code(C), Code(F)) == -40.0
  {
  }

  /** The zero shortcut wins over the formula: 0 °C becomes 0, not 32 °F and not 273.15 K. */
  lemma ZeroCelsiusIsNotConverted()
    ensures FromCelsius(0.0, Code(F)) == 32.0 && FromCelsius(0.0, Code(K)) == 273.15
    ensures ConvertTemperature(Some(0.0), Code(C), Code(F)) == 0.0
    ensures ConvertTemperature(Some(0.0), Code(C), Code(K)) == 0.0
  {
  }

  /** 273.15 K becomes 0 °C, and that 0 is then read as no input: the way back gives 0, not 273.15 K. */
  lemma KelvinRoundTripThroughZero()
    ensures ConvertTemperature(Some(273.15), Code(K), Code(C)) == 0.0
    ensures ConvertTemperature(Some(0.0), Code(C), Code(K)) == 0.0
  {
  }

  /**
    As written, the registry's ft/s factor is 1/0.3048, so 1 ft/s becomes
    about 3.28 m/s, while its Length table turns 1 ft into 0.3048 m.
  */
  lemma FeetPerSecondAsWritten()
    ensures ConvertStandard(Some(1.0), "Feet per second (ft/s)", "Meters per second (m/s)", Speed) == Some(1.0 / 0.3048)
    ensures ConvertStandard(Some(1.0), "Foot (ft)", "Meter (m)", Length) == Some(0.3048)
    ensures 1.0 / 0.3048 > 3.0
  {
  }

  /** Speed with the ft/s entry storing m/s per unit, as every other entry of the category does. */
  const CorrectedSpeed := Category(Speed.units["Feet per second (ft/s)" := Factor(0.3048)], Speed.baseUnit)

  /**
    With the corrected entry, v ft/s converts to m/s exactly as v ft
    converts to m, for every v, and the category stays linear.
  */
  lemma CorrectedFeetPerSecondAgreesWithFoot(v: real)
    ensures Linear(CorrectedSpeed)
    ensures ConvertStandard(Some(v), "Feet per second (ft/s)", "Meters per second (m/s)", CorrectedSpeed)
         == ConvertStandard(Some(v), "Foot (ft)", "Meter (m)", Length)
  {
  }
}
