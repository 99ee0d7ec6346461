/** The reading pipeline (sensor-dashboard/src/utils/conversions.js): a per-metric
    linear calibration in the sensor's base unit, followed by conversion into the
    display unit. Temperature is reported in degrees Celsius, pressure in hectopascals. */
module Conversions {
  import opened Values
  import opened Defaults

  const Celsius: string := "\U{00B0}C"
  const Fahrenheit: string := "\U{00B0}F"
  const Kelvin: string := "K"
  const Hectopascal: string := "hPa"
  const Pascal: string := "Pa"

  // ---------------------------------------------------------------------------
  // Calibration

  /** The metric's calibration entry, or the identity entry when it has none. */
  function EntryFor(metric: string, calibration: map<string, Coefficients>): Coefficients {
    if metric in calibration then calibration[metric] else IdentityCalibration
  }

  /** A coefficient that is not a finite number is replaced by `fallback`. */
  function FiniteOr(c: Num, fallback: real): (r: real)
    ensures c.Finite? ==> r == c.value
    ensures c.NonFinite? ==> r == fallback
  {
    match c
    case Finite(x) => x
    case NonFinite => fallback
  }

  /** The scale actually applied: the stored one if finite, else 1. */
  function ScaleFor(metric: string, calibration: map<string, Coefficients>): real {
    FiniteOr(EntryFor(metric, calibration).scale, 1.0)
  }

  /** The offset actually applied: the stored one if finite, else 0. */
  function OffsetFor(metric: string, calibration: map<string, Coefficients>): real {
    FiniteOr(EntryFor(metric, calibration).offset, 0.0)
  }

  /** `applyCalibration(metricKey, value, calibration)` */
  function ApplyCalibration(metric: string, value: Option<Num>, calibration: map<string, Coefficients>): (r: Option<Num>)
    ensures r.None? <==> value.None?
    ensures value.Some? ==> (r.value.Finite? <==> value.value.Finite?)
    ensures value.Some? && value.value.Finite? ==>
              r.value.value == value.value.value * ScaleFor(metric, calibration) + OffsetFor(metric, calibration)
  {
    match value
    case None => None
    case Some(v) => Some(Plus(Times(v, ScaleFor(metric, calibration)), OffsetFor(metric, calibration)))
  }

  /** A metric without an entry is left as it is. */
  lemma CalibrationIdentityWithoutEntry(metric: string, value: Option<Num>, calibration: map<string, Coefficients>)
    requires metric !in calibration
    ensures ApplyCalibration(metric, value, calibration) == value
  {
  }

  /** The two fallbacks are independent: a non-finite scale becomes 1 while a
      finite offset is still added, and a non-finite offset becomes 0 while a
      finite scale still multiplies. */
  lemma CalibrationFallbacksIndependent(metric: string, v: real, calibration: map<string, Coefficients>)
    requires metric in calibration
    ensures var c := calibration[metric];
            var r := ApplyCalibration(metric, Some(Finite(v)), calibration).value.value;
            && (c.scale.NonFinite? && c.offset.Finite? ==> r == v + c.offset.value)
            && (c.scale.Finite? && c.offset.NonFinite? ==> r == v * c.scale.value)
            && (c.scale.NonFinite? && c.offset.NonFinite? ==> r == v)
            && (c.scale.Finite? && c.offset.Finite? ==> r == v * c.scale.value + c.offset.value)
  {
  }

  /** With a non-zero scale the calibration can be undone: the raw value is
      recovered as `(calibrated - offset) / scale`. */
  lemma CalibrationInvertible(metric: string, v: real, calibration: map<string, Coefficients>)
    requires ScaleFor(metric, calibration) != 0.0
    ensures var r := ApplyCalibration(metric, Some(Finite(v)), calibration).value.value;
            (r - OffsetFor(metric, calibration)) / ScaleFor(metric, calibration) == v
  {
    var s, o := ScaleFor(metric, calibration), OffsetFor(metric, calibration);
    assert (v * s + o - o) / s == (v * s) / s;
  }

  // ---------------------------------------------------------------------------
  // Unit conversion

  /** Reference inverse of the temperature conversion: the Celsius value a
      displayed value stands for. */
  function CelsiusFrom(shown: real, unit: string): real {
    if unit == Fahrenheit then (shown - 32.0) * 5.0 / 9.0
    else if unit == Kelvin then shown - 273.15
    else shown
  }

  /** `convertTemperature(celsius, unit)` */
  function ConvertTemperature(celsius: Option<Num>, unit: string): (r: Option<Num>)
    ensures r.None? <==> celsius.None?
    ensures celsius.Some? ==> (r.value.Finite? <==> celsius.value.Finite?)
    ensures celsius.Some? && celsius.value.Finite? ==> CelsiusFrom(r.value.value, unit) == celsius.value.value
    ensures unit != Fahrenheit && unit != Kelvin ==> r == celsius
  {
    match celsius
    case None => None
    case Some(c) =>
      if unit == Celsius then Some(c)
      else if unit == Fahrenheit then Some(Plus(Times(Times(c, 9.0), 1.0 / 5.0), 32.0))
      else if unit == Kelvin then Some(Plus(c, 273.15))
      else Some(c)
  }

  /** 20 degrees Celsius is shown as 20, 68 and 293.15; an unknown unit passes it through. */
  lemma TemperatureExamples()
    ensures ConvertTemperature(Some(Finite(20.0)), Celsius) == Some(Finite(20.0))
    ensures ConvertTemperature(Some(Finite(20.0)), Fahrenheit) == Some(Finite(68.0))
    ensures ConvertTemperature(Some(Finite(20.0)), Kelvin) == Some(Finite(293.15))
    ensures ConvertTemperature(Some(Finite(20.0)), "C") == Some(Finite(20.0))
  {
  }

  /** Every unit preserves the order of temperatures, so a chart keeps its shape. */
  lemma TemperatureOrderPreserved(a: real, b: real, unit: string)
    requires a < b
    ensures ConvertTemperature(Some(Finite(a)), unit).value.value < ConvertTemperature(Some(Finite(b)), unit).value.value
  {
  }

  /** Reference inverse of the pressure conversion: the hectopascal value a
      displayed value stands for. */
  function HectopascalsFrom(shown: real, unit: string): real {
    if unit == Pascal then shown / 100.0 else shown
  }

  /** `convertPressure(hpa, unit)` */
  function ConvertPressure(hpa: Option<Num>, unit: string): (r: Option<Num>)
    ensures r.None? <==> hpa.None?
    ensures hpa.Some? ==> (r.value.Finite? <==> hpa.value.Finite?)
    ensures hpa.Some? && hpa.value.Finite? ==> HectopascalsFrom(r.value.value, unit) == hpa.value.value
    ensures unit != Pascal ==> r == hpa
  {
    match hpa
    case None => None
    case Some(p) =>
      if unit == Hectopascal then Some(p)
      else if unit == Pascal then Some(Times(p, 100.0))
      else Some(p)
  }

  /** 1013.25 hPa is shown as 1013.25 or 101325. */
  lemma PressureExamples()
    ensures ConvertPressure(Some(Finite(1013.25)), Hectopascal) == Some(Finite(1013.25))
    ensures ConvertPressure(Some(Finite(1013.25)), Pascal) == Some(Finite(101325.0))
    ensures ConvertPressure(Some(Finite(1013.25)), "bar") == Some(Finite(1013.25))
  {
  }

  // ---------------------------------------------------------------------------
  // Display values: calibrate in the base unit, then convert

  /** `getTemperatureDisplay(rawCelsius, settings)`: converting the shown value
      back to Celsius gives the calibrated reading. */
  function TemperatureDisplay(raw: Option<Num>, settings: Settings): (r: Option<Num>)
    ensures r.None? <==> raw.None?
    ensures raw.Some? ==> (r.value.Finite? <==> raw.value.Finite?)
    ensures raw.Some? && raw.value.Finite? ==>
              CelsiusFrom(r.value.value, settings.temperatureUnit)
              == raw.value.value * ScaleFor("temperature", settings.calibration) + OffsetFor("temperature", settings.calibration)
  {
    ConvertTemperature(ApplyCalibration("temperature", raw, settings.calibration), settings.temperatureUnit)
  }

  /** `getHumidityDisplay(rawHumidity, settings)`: calibration only. */
  function HumidityDisplay(raw: Option<Num>, settings: Settings): (r: Option<Num>)
    ensures r.None? <==> raw.None?
    ensures raw.Some? ==> (r.value.Finite? <==> raw.value.Finite?)
    ensures raw.Some? && raw.value.Finite? ==>
              r.value.value == raw.value.value * ScaleFor("humidity", settings.calibration) + OffsetFor("humidity", settings.calibration)
  {
    ApplyCalibration("humidity", raw, settings.calibration)
  }

  /** `getPressureDisplay(rawHpa, settings)`: converting the shown value back to
      hectopascals gives the calibrated reading. */
  function PressureDisplay(raw: Option<Num>, settings: Settings): (r: Option<Num>)
    ensures r.None? <==> raw.None?
    ensures raw.Some? ==> (r.value.Finite? <==> raw.value.Finite?)
    ensures raw.Some? && raw.value.Finite? ==>
              HectopascalsFrom(r.value.value, settings.pressureUnit)
              == raw.value.value * ScaleFor("pressure", settings.calibration) + OffsetFor("pressure", settings.calibration)
  {
    ConvertPressure(ApplyCalibration("pressure", raw, settings.calibration), settings.pressureUnit)
  }

  /** The display value of a metric, as each chart and card computes it. */
  function Display(m: Metric, raw: Option<Num>, settings: Settings): (r: Option<Num>)
    ensures r.None? <==> raw.None?
    ensures raw.Some? ==> (r.value.Finite? <==> raw.value.Finite?)
  {
    match m
    case Temperature => TemperatureDisplay(raw, settings)
    case Humidity => HumidityDisplay(raw, settings)
    case Pressure => PressureDisplay(raw, settings)
  }

  /** Calibration comes first: scale 2, offset 5 and a raw 10 degrees Celsius
      shown in Fahrenheit is 25 degrees Celsius converted, 77, and not the
      converted 50 calibrated afterwards, 105. */
  lemma CalibrateBeforeConvert(settings: Settings)
    requires settings.calibration == map["temperature" := Coefficients(Finite(2.0), Finite(5.0))]
    requires settings.temperatureUnit == Fahrenheit
    ensures TemperatureDisplay(Some(Finite(10.0)), settings) == Some(Finite(77.0))
    ensures TemperatureDisplay(Some(Finite(10.0)), settings)
            != Some(Finite(ConvertTemperature(Some(Finite(10.0)), Fahrenheit).value.value * 2.0 + 5.0))
  {
  }

  /** Humidity does not depend on either unit preference. */
  lemma HumidityIgnoresUnits(raw: Option<Num>, settings: Settings, temperatureUnit: string, pressureUnit: string)
    ensures HumidityDisplay(raw, settings.(temperatureUnit := temperatureUnit, pressureUnit := pressureUnit))
            == HumidityDisplay(raw, settings)
  {
  }

  // ---------------------------------------------------------------------------
  // The defaults

  /** The default calibration is the identity on every metric. */
  lemma DefaultCalibrationIsIdentity(metric: string, value: Option<Num>)
    requires metric in MetricKeys
    ensures ApplyCalibration(metric, value, DefaultSettings.calibration) == value
  {
  }

  /** The default temperature unit matches none of the converter's units, so
      the default display passes the Celsius value through; the default
      pressure unit is hectopascals. With the identity calibration every
      metric is therefore shown as read. */
  lemma DefaultDisplayIsIdentity(raw: Option<Num>)
    ensures DefaultTemperatureUnit != Celsius && DefaultTemperatureUnit != Fahrenheit && DefaultTemperatureUnit != Kelvin
    ensures TemperatureDisplay(raw, DefaultSettings) == raw
    ensures HumidityDisplay(raw, DefaultSettings) == raw
    ensures PressureDisplay(raw, DefaultSettings) == raw
  {
  }
}
