# Unit converter: conversion engine and unit registry

A Dafny model of the core of a unit-conversion calculator. The core has two parts:

- **The unit registry** (`CONVERSION_FACTORS`). It holds seven categories: Length, Weight/Mass, Temperature, Volume, Area, Speed and Data Storage. In each linear category, a unit label maps to a scale factor, which says how many base units one of that unit is worth. In Temperature, a label maps to one of the symbols C, F or K.
- **The conversion engine.**
  - `convert_standard` multiplies by the source factor and divides by the target factor.
  - `convert_temperature` converts to Celsius and then from Celsius to the target scale.

Files:

- `wrappers.dfy`: `Option`, which stands for Python's `None`.
- `conversion_data.dfy` (module `ConversionData`): the registry as a constant `map<string, Category>`. A unit value is `Factor(real)` or `Symbol(TempSym)`. The module also proves lemmas about the table's contents.
- `converters.dfy` (module `Converters`): the two conversion functions, their contracts and the algebraic laws.
- `table_conversions.dfy` (module `TableConversions`): the engine applied to the registry's own units, plus the finding below.

All arithmetic is over Dafny `real`. Every factor in the table is an exact decimal or a quotient of decimals, so the round-trip and composition laws are exact theorems. The input value is an `Option<real>`. Python's `not value` is true for `None` and for `0`, and the model's `Falsy` is true in exactly those cases. Both functions return `0.0` for such a value before doing anything else.

Behaviour of the code worth knowing:

- Physically, 0 °C is 32 °F and 273.15 K. The zero shortcut (`utils/converters.py:20-21`) returns `0.0` for both; see `ZeroCelsiusIsNotConverted` and `KelvinRoundTripThroughZero`.
- `convert_standard` does not tell an unknown unit, a non-numeric factor and a zero divisor apart. It returns `None` for all three, so `ConvertStandard` returns `Option<real>`. The predicate `Scalable` states when the result is not `None`.
- The international mile is 1609.344 m, which would give 8.04672 km for 5 mi. The registry's mile is 1609.34 m, so 5 mi → km is exactly 8.0467.
- `convert_temperature` compares symbol strings. Any symbol other than `"F"` or `"K"` is treated as Celsius, so the model takes strings (`UnknownSymbolIsCelsius`). The registry stores `Symbol(C|F|K)`, and `Code` gives the string that is passed in.

## Model

| member | source | states |
|---|---|---|
| ConversionData.CategoryNames | utils/conversion_data.py:1-98 | the registry has exactly the seven named categories, and no others |
| ConversionData.UnitCounts | utils/conversion_data.py:1-98 | the unit counts are Length 9, Weight/Mass 7, Temperature 3, Volume 11, Area 7, Speed 5 and Data Storage 10 |
| ConversionData.AtLeastTwoUnits | utils/conversion_data.py:1-98 | every category has at least two units, so a second, different default target unit always exists |
| ConversionData.LinearCategories | utils/conversion_data.py:1-98 | every unit of every category except Temperature has a strictly positive numeric factor |
| ConversionData.BaseUnitsHaveFactorOne | utils/conversion_data.py:1-98 | each linear category's base unit is one of its own units, with factor exactly 1 |
| ConversionData.TemperatureSymbols | utils/conversion_data.py:30-38 | Temperature has no base unit, its values are exactly the symbols C, F and K, no two labels share a symbol, and none of its values is a factor |
| ConversionData.DataStoragePrefixes | utils/conversion_data.py:80-97 | KB = 1000, KiB = 1024, Bit = 0.125, and MB/MiB, GB/GiB and TB/TiB have different factors |
| Converters.ConvertStandard | utils/converters.py:1-16 | a zero or absent value gives 0.0; equal labels give the value back; otherwise the result exists exactly when both labels are present with numeric factors and the target factor is nonzero, and a result is worth the same number of base units as the input |
| Converters.ConvertTemperature | utils/converters.py:18-40 | a zero or absent value gives 0.0; any other value gives the temperature whose Celsius reading on the target scale equals the input's Celsius reading on the source scale (the two pivot stages are ToCelsius and FromCelsius, related by PivotInverse) |
| Converters.TemperatureIdentity | utils/converters.py:23-24 | equal symbols give the value back unchanged, for every symbol string |
| Converters.PivotInverse | utils/converters.py:26-40 | on every scale, converting to Celsius and converting from Celsius undo each other |
| Converters.CelsiusReadingDetermines | utils/converters.py:26-32 | two readings on one scale with the same Celsius value are equal, so the contract of ConvertTemperature fixes its result |
| Converters.StandardIdentity | utils/converters.py:5-6 | with equal labels, the value is returned unchanged, even when the label is not in the category |
| Converters.LinearTotal | utils/converters.py:10-16 | with positive factors, any two units of the category convert without failing, and the result has the sign of the input and is zero only when the input is |
| Converters.LinearRoundTrip | utils/converters.py:11-12 | with positive factors, a → b → a returns the value exactly, for every real |
| Converters.LinearComposition | utils/converters.py:11-12 | with positive factors, a → b → c equals a → c |
| Converters.UnknownSymbolIsCelsius | utils/converters.py:26-40 | on either side, a symbol other than "F" or "K" behaves exactly like "C" |
| Converters.TemperatureRoundTrip | utils/converters.py:18-40 | for a nonzero value, s → t → s returns it exactly when the intermediate result is nonzero |
| Converters.TemperatureComposition | utils/converters.py:18-40 | s → t → u equals s → u whenever the intermediate result is nonzero |
| TableConversions.RegistryRoundTrip | utils/conversion_data.py:1-98 | on every linear category of the registry, any two units convert, and the round trip returns the value |
| TableConversions.MileToKilometer | utils/conversion_data.py:5-8 | 5 Mile (mi) is exactly 8.0467 Kilometer (km) |
| TableConversions.KilobyteAndKibibyte | utils/conversion_data.py:84-93 | 1 KB is 1000 B, 1 KiB is 1024 B, and 8 bits are 1 B |
| TableConversions.UnknownUnitFails | utils/converters.py:10-16 | in every registry category, a nonzero value between two distinct labels gives None when either label is missing from the category |
| TableConversions.ParsecIsNotALength | utils/converters.py:10-16 | an example: "Parsec" to or from "Meter (m)" in Length gives None |
| TableConversions.TemperatureLabelsDoNotScale | utils/converters.py:10-16 | linear conversion of a nonzero value between any two distinct labels of the Temperature category gives None |
| TableConversions.TemperatureFixedPoints | utils/converters.py:26-40 | with the registry's symbols: 100 °C is 212 °F, 32 °F is 0 °C, 373.15 K is 100 °C and −40 °C is −40 °F |
| TableConversions.ZeroCelsiusIsNotConverted | utils/converters.py:20-21 | the formulas send 0 °C to 32 °F and 273.15 K, but the zero shortcut returns 0.0 for both |
| TableConversions.KelvinRoundTripThroughZero | utils/converters.py:18-40 | 273.15 K becomes 0 °C, and converting that 0 back gives 0, not 273.15 K |
| TableConversions.FeetPerSecondAsWritten | utils/conversion_data.py:75 | as written, 1 ft/s converts to 1/0.3048 (more than 3) m/s, while 1 ft converts to 0.3048 m |
| TableConversions.CorrectedFeetPerSecondAgreesWithFoot | utils/conversion_data.py:69-79 | with the ft/s factor stored as 0.3048, Speed stays linear, and v ft/s → m/s equals v ft → m for every v |

## Left out

- All of `app.py`. This covers the Streamlit page, the widgets and the session state, theme switching, CSS and logo loading, and the clear, swap and category-reset handlers. The UI's choice between the two converters (`app.py:181-187`) is left out as well. Looking up a category by name is plain indexing of the registry map there.
- Display formatting (`.4g` for the input and `.6g` for the result) is presentation and is not modelled.
- IEEE-754 double rounding is not modelled. The model computes with exact reals, so float drift (for example in `1/3.6`) is not captured.
- Python truthiness and `float()` coercion of arbitrary objects are not modelled. The input is `Option<real>`: `None` or `0.0` takes the zero shortcut. Strings, NaN and other types are not modelled.
- The category `icon` field and the display order of the unit labels are not modelled. Python dicts keep insertion order, which only the UI's selection lists use, so the model stores units as a `map`.
- ConvertStandard: the typed errors (unknown unit, division by zero) are merged into `None`, as the source does.

## Findings

| source | as written | input that shows it | evidently intended | confidence | as-written member | corrected member |
|---|---|---|---|---|---|---|
| utils/conversion_data.py:75 | the "Feet per second (ft/s)" factor is `1/0.3048` | 1 ft/s → m/s gives 1/0.3048 ≈ 3.28 m/s; 1 ft/s is 0.3048 m/s, and Length converts 1 ft to 0.3048 m | `0.3048`: every other Speed entry stores the m/s value of one unit, the reciprocal of the per-m/s figure in its comment | high; not executed | TableConversions.FeetPerSecondAsWritten | TableConversions.CorrectedFeetPerSecondAgreesWithFoot |

The registry constant `Table` reproduces the source's factor as written. `CorrectedSpeed` holds the intended value, and `CorrectedFeetPerSecondAgreesWithFoot` proves the intended property about it.
