/** Normalisation of an entered length to metres (`convert_to_meters` in main.py). */
module Units {

  /** Scale factor to metres of every unit tag the converter recognises.
      Any tag missing from this table, "meters" included, is taken to be metres. */
  const ScaleToMeters: map<string, real> := map["inches" := 0.0254, "centimeters" := 0.01]

  /** Converts `value`, entered in the unit named by `unit`, to metres.
      The unit selector is editable, so `unit` may be any text; an unknown tag
      falls through and leaves the value as it is. */
  function ConvertToMeters(value: real, unit: string): (r: real)
    ensures unit in ScaleToMeters ==> r == value * ScaleToMeters[unit]
    ensures unit !in ScaleToMeters ==> r == value
    ensures r < 0.0 <==> value < 0.0
    ensures r == 0.0 <==> value == 0.0
    ensures 0.0 <= value ==> r <= value
  {
    if unit == "inches" then
      value * 0.0254
    else if unit == "centimeters" then
      value / 100.0
    else
      value
  }

  /** One inch is 2.54 centimetres: both branches agree on the same physical length. */
  lemma InchesAgreeWithCentimeters(inches: real)
    ensures ConvertToMeters(inches, "inches") == ConvertToMeters(2.54 * inches, "centimeters")
  {
  }

  /** Conversion is linear in the value for every tag, so it commutes with the
      scaling by rate and count that the ledger applies afterwards. */
  lemma ConvertIsLinear(a: real, b: real, k: real, unit: string)
    ensures ConvertToMeters(k * a + b, unit) == k * ConvertToMeters(a, unit) + ConvertToMeters(b, unit)
  {
  }

  /** Conversion preserves the order of lengths entered in the same unit. */
  lemma ConvertIsMonotonic(a: real, b: real, unit: string)
    requires a <= b
    ensures ConvertToMeters(a, unit) <= ConvertToMeters(b, unit)
  {
  }
}
