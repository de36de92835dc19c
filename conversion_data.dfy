/**
  The static unit registry `CONVERSION_FACTORS` (utils/conversion_data.py).

  Each category maps unit labels to a unit value. In the six linear
  categories the value is a scale factor: how many base units one of this
  unit is worth. In Temperature the value is a symbol naming the scale,
  because temperatures are related by an offset and not by a ratio.
  The `icon` field is cosmetic and is not modelled.
*/
module ConversionData {
  import opened Wrappers

  /** The three temperature scales the registry names. */
  datatype TempSym = C | F | K

  /** The symbol string the registry stores for a temperature scale. */
  function Code(t: TempSym): (s: string)
  {
    match t
    case C => "C"
    case F => "F"
    case K => "K"
  }

  /** A unit's value: a numeric scale factor, or a temperature symbol. */
  datatype UnitValue = Factor(factor: real) | Symbol(sym: TempSym)

  /** A category: its unit map and the label of its base unit, if any. */
  datatype Category = Category(units: map<string, UnitValue>, baseUnit: Option<string>)

  /** Every unit of the category has a strictly positive scale factor. */
  predicate Linear(c: Category)
  {
    forall u :: u in c.units ==> c.units[u].Factor? && c.units[u].factor > 0.0
  }

  // Category names, as the registry spells them.
  const LengthName := "Length"
  const MassName := "Weight/Mass"
  const TemperatureName := "Temperature"
  const VolumeName := "Volume"
  const AreaName := "Area"
  const SpeedName := "Speed"
  const DataStorageName := "Data Storage"

  const Length := Category(map[
      "Meter (m)" := Factor(1.0),
      "Kilometer (km)" := Factor(1000.0),
      "Centimeter (cm)" := Factor(0.01),
      "Millimeter (mm)" := Factor(0.001),
      "Mile (mi)" := Factor(1609.34),
      "Yard (yd)" := Factor(0.9144),
      "Foot (ft)" := Factor(0.3048),
      "Inch (in)" := Factor(0.0254),
      "Nautical Mile (NM)" := Factor(1852.0)
    ], Some("Meter (m)"))

  const Mass := Category(map[
      "Kilogram (kg)" := Factor(1.0),
      "Gram (g)" := Factor(0.001),
      "Milligram (mg)" := Factor(0.000001),
      "Metric Ton (t)" := Factor(1000.0),
      "Pound (lb)" := Factor(0.453592),
      "Ounce (oz)" := Factor(0.0283495),
      "Stone (st)" := Factor(6.35029)
    ], Some("Kilogram (kg)"))

  const Temperature := Category(map[
      "Celsius (°C)" := Symbol(C),
      "Fahrenheit (°F)" := Symbol(F),
      "Kelvin (K)" := Symbol(K)
    ], None)

  const Volume := Category(map[
      "Liter (L)" := Factor(1.0),
      "Milliliter (mL)" := Factor(0.001),
      "Cubic Meter (m³)" := Factor(1000.0),
      "Cubic Centimeter (cm³)" := Factor(0.001),
      "US Gallon (gal)" := Factor(3.78541),
      "US Quart (qt)" := Factor(0.946353),
      "US Pint (pt)" := Factor(0.473176),
      "US Cup (cup)" := Factor(0.236588),
      "US Fluid Ounce (fl oz)" := Factor(0.0295735),
      "Imperial Gallon (imp gal)" := Factor(4.54609),
      "Imperial Pint (imp pt)" := Factor(0.568261)
    ], Some("Liter (L)"))

  const Area := Category(map[
      "Square Meter (m²)" := Factor(1.0),
      "Square Kilometer (km²)" := Factor(1000000.0),
      "Hectare (ha)" := Factor(10000.0),
      "Acre (ac)" := Factor(4046.86),
      "Square Mile (mi²)" := Factor(2589988.11),
      "Square Foot (ft²)" := Factor(0.092903),
      "Square Inch (in²)" := Factor(0.00064516)
    ], Some("Square Meter (m²)"))

  /** Speed factors are written as reciprocals, exactly as the registry has them. */
  const Speed := Category(map[
      "Meters per second (m/s)" := Factor(1.0),
      "Kilometers per hour (km/h)" := Factor(1.0 / 3.6),
      "Miles per hour (mph)" := Factor(1.0 / 2.23694),
      "Knots (kn)" := Factor(1.0 / 1.94384),
      "Feet per second (ft/s)" := Factor(1.0 / 0.3048)
    ], Some("Meters per second (m/s)"))

  /** Decimal (10^n) and binary (2^n) prefixes are distinct units. */
  const DataStorage := Category(map[
      "Byte (B)" := Factor(1.0),
      "Kilobyte (KB) [10³ B]" := Factor(1000.0),
      "Megabyte (MB) [10⁶ B]" := Factor(1000000.0),
      "Gigabyte (GB) [10⁹ B]" := Factor(1000000000.0),
      "Terabyte (TB) [10¹² B]" := Factor(1000000000000.0),
      "Kibibyte (KiB) [2¹⁰ B]" := Factor(1024.0),
      "Mebibyte (MiB) [2²⁰ B]" := Factor(1048576.0),
      "Gibibyte (GiB) [2³⁰ B]" := Factor(1073741824.0),
      "Tebibyte (TiB) [2⁴⁰ B]" := Factor(1099511627776.0),
      "Bit (b)" := Factor(0.125)
    ], Some("Byte (B)"))

  /** CONVERSION_FACTORS: category name to category. */
  const Table: map<string, Category> := map[
    LengthName := Length,
    MassName := Mass,
    TemperatureName := Temperature,
    VolumeName := Volume,
    AreaName := Area,
    SpeedName := Speed,
    DataStorageName := DataStorage
  ]

  /** Looking a category up by name gives the category defined above. */
  lemma Entries()
    ensures Table[LengthName] == Length && Table[MassName] == Mass && Table[TemperatureName] == Temperature
    ensures Table[VolumeName] == Volume && Table[AreaName] == Area
    ensures Table[SpeedName] == Speed && Table[DataStorageName] == DataStorage
  {
  }

  /** The registry holds exactly the seven categories. */
  lemma CategoryNames()
    ensures Table.Keys == {LengthName, MassName, TemperatureName, VolumeName, AreaName, SpeedName, DataStorageName}
    ensures |Table| == 7
  {
    assert Table.Keys == {LengthName, MassName, TemperatureName, VolumeName, AreaName, SpeedName, DataStorageName};
    SevenNames();
  }

  lemma SevenNames()
    ensures |{LengthName, MassName, TemperatureName, VolumeName, AreaName, SpeedName, DataStorageName}| == 7
  {
  }

  /** Unit counts per category: 9, 7, 3, 11, 7, 5 and 10. */
  lemma UnitCounts()
    ensures |Table[LengthName].units| == 9 && |Table[MassName].units| == 7
    ensures |Table[TemperatureName].units| == 3 && |Table[VolumeName].units| == 11
    ensures |Table[AreaName].units| == 7 && |Table[SpeedName].units| == 5
    ensures |Table[DataStorageName].units| == 10
  {
    Entries();
    LengthCount(); MassCount(); TemperatureCount(); VolumeCount();
    AreaCount(); SpeedCount(); DataStorageCount();
  }

  lemma LengthCount() ensures |Length.units| == 9 { }
  lemma MassCount() ensures |Mass.units| == 7 { }
  lemma TemperatureCount() ensures |Temperature.units| == 3 { }
  lemma VolumeCount() ensures |Volume.units| == 11 { }
  lemma AreaCount() ensures |Area.units| == 7 { }
  lemma SpeedCount() ensures |Speed.units| == 5 { }
  lemma DataStorageCount() ensures |DataStorage.units| == 10 { }

  /** A name in the registry is one of the seven, and selects that category. */
  lemma Lookup(name: string)
    requires name in Table
    ensures || (name == LengthName && Table[name] == Length)
            || (name == MassName && Table[name] == Mass)
            || (name == TemperatureName && Table[name] == Temperature)
            || (name == VolumeName && Table[name] == Volume)
            || (name == AreaName && Table[name] == Area)
            || (name == SpeedName && Table[name] == Speed)
            || (name == DataStorageName && Table[name] == DataStorage)
  {
    OneOfSeven(name);
    Entries();
  }

  lemma OneOfSeven(name: string)
    requires name in Table
    ensures name == LengthName || name == MassName || name == TemperatureName || name == VolumeName
         || name == AreaName || name == SpeedName || name == DataStorageName
  {
  }

  /** Every category offers at least two units to choose between. */
  lemma AtLeastTwoUnits(name: string)
    requires name in Table
    ensures |Table[name].units| >= 2
  {
    Lookup(name);
    LengthCount(); MassCount(); TemperatureCount(); VolumeCount();
    AreaCount(); SpeedCount(); DataStorageCount();
  }

  lemma LengthLinear() ensures Linear(Length) { }
  lemma MassLinear() ensures Linear(Mass) { }
  lemma VolumeLinear() ensures Linear(Volume) { }
  lemma AreaLinear() ensures Linear(Area) { }
  lemma SpeedLinear() ensures Linear(Speed) { }
  lemma DataStorageLinear() ensures Linear(DataStorage) { }

  /** Every category other than Temperature has only strictly positive factors. */
  lemma LinearCategories(name: string)
    requires name in Table && name != TemperatureName
    ensures Linear(Table[name])
  {
    Lookup(name);
    LengthLinear(); MassLinear(); VolumeLinear();
    AreaLinear(); SpeedLinear(); DataStorageLinear();
  }

  /** Each linear category's base unit is one of its own units, with factor 1. */
  lemma BaseUnitsHaveFactorOne(name: string)
    requires name in Table && name != TemperatureName
    ensures Table[name].baseUnit.Some?
    ensures Table[name].baseUnit.value in Table[name].units
    ensures Table[name].units[Table[name].baseUnit.value] == Factor(1.0)
  {
    Lookup(name);
  }

  /** Temperature holds exactly the three distinct symbols and has no base unit. */
  lemma TemperatureSymbols()
    ensures Table[TemperatureName].baseUnit == None
    ensures Table[TemperatureName].units.Values == {Symbol(C), Symbol(F), Symbol(K)}
    ensures forall u, v :: u in Table[TemperatureName].units && v in Table[TemperatureName].units && u != v
              ==> Table[TemperatureName].units[u] != Table[TemperatureName].units[v]
    ensures forall u :: u in Table[TemperatureName].units ==> !Table[TemperatureName].units[u].Factor?
  {
    Entries();
    TemperatureLabels();
    TemperatureValues();
  }

  lemma TemperatureLabels()
    ensures Temperature.units.Keys == {"Celsius (°C)", "Fahrenheit (°F)", "Kelvin (K)"}
    ensures Temperature.units["Celsius (°C)"] == Symbol(C)
    ensures Temperature.units["Fahrenheit (°F)"] == Symbol(F)
    ensures Temperature.units["Kelvin (K)"] == Symbol(K)
  {
  }

  lemma TemperatureValues()
    ensures Temperature.units.Values == {Symbol(C), Symbol(F), Symbol(K)}
  {
    TemperatureLabels();
    var m := Temperature.units;
    assert Symbol(C) in m.Values && Symbol(F) in m.Values && Symbol(K) in m.Values by {
      assert m["Celsius (°C)"] == Symbol(C);
      assert m["Fahrenheit (°F)"] == Symbol(F);
      assert m["Kelvin (K)"] == Symbol(K);
    }
  }

  /** Decimal and binary prefixes of Data Storage are kept apart; a bit is an eighth of a byte. */
  lemma DataStoragePrefixes()
    ensures DataStorage.units["Kilobyte (KB) [10³ B]"] == Factor(1000.0)
    ensures DataStorage.units["Kibibyte (KiB) [2¹⁰ B]"] == Factor(1024.0)
    ensures DataStorage.units["Megabyte (MB) [10⁶ B]"] != DataStorage.units["Mebibyte (MiB) [2²⁰ B]"]
    ensures DataStorage.units["Gigabyte (GB) [10⁹ B]"] != DataStorage.units["Gibibyte (GiB) [2³⁰ B]"]
    ensures DataStorage.units["Terabyte (TB) [10¹² B]"] != DataStorage.units["Tebibyte (TiB) [2⁴⁰ B]"]
    ensures DataStorage.units["Bit (b)"] == Factor(0.125)
  {
  }
}
