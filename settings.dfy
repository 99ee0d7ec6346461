/** The shapes of the dashboard's preferences and their built-in defaults
    (sensor-dashboard/src/constants/settings.js). */
module Defaults {
  import opened Values

  /** The three metrics, which key every per-metric table and name the charts. */
  datatype Metric = Temperature | Humidity | Pressure {
    function Key(): string {
      match this
      case Temperature => "temperature"
      case Humidity => "humidity"
      case Pressure => "pressure"
    }
  }

  const MetricKeys: set<string> := {"temperature", "humidity", "pressure"}

  /** Per-metric linear calibration `value * scale + offset`. A field that is
      missing or is not a finite number is `NonFinite`. */
  datatype Coefficients = Coefficients(scale: Num, offset: Num)

  /** The display preferences. Tables are keyed by metric name. */
  datatype Settings = Settings(
    temperatureUnit: string,
    pressureUnit: string,
    decimalPlaces: map<string, int>,
    calibration: map<string, Coefficients>)

  /** One chart's axis overrides as stored: each field is a string (the empty
      string meaning "auto"), or None when the field is absent. */
  datatype AxisBounds = AxisBounds(xMin: Option<string>, xMax: Option<string>, yMin: Option<string>, yMax: Option<string>)

  /** The four fields of `AxisBounds`, for statements about one field at a time. */
  datatype AxisField = XMin | XMax | YMin | YMax

  function BoundField(b: AxisBounds, f: AxisField): Option<string> {
    match f
    case XMin => b.xMin
    case XMax => b.xMax
    case YMin => b.yMin
    case YMax => b.yMax
  }

  /** Axis overrides per chart key. */
  type AxisTable = map<string, AxisBounds>

  /** The default temperature unit exactly as the constants file spells it:
      the three characters U+00C2 U+00B0 'C' (a doubly encoded degree sign),
      not the two-character "°C" the converter tests for. */
  const DefaultTemperatureUnit: string := "\U{00C2}\U{00B0}C"

  const IdentityCalibration: Coefficients := Coefficients(Finite(1.0), Finite(0.0))

  const DefaultSettings: Settings := Settings(
    DefaultTemperatureUnit,
    "hPa",
    map["temperature" := 3, "humidity" := 3, "pressure" := 3],
    map["temperature" := IdentityCalibration, "humidity" := IdentityCalibration, "pressure" := IdentityCalibration])

  /** Every field empty: no override on either axis. */
  const AllAuto: AxisBounds := AxisBounds(Some(""), Some(""), Some(""), Some(""))

  const DefaultAxisSettings: AxisTable := map["temperature" := AllAuto, "humidity" := AllAuto, "pressure" := AllAuto]

  /** A settings value whose per-metric tables cover every metric. */
  ghost predicate Complete(s: Settings) {
    MetricKeys <= s.decimalPlaces.Keys && MetricKeys <= s.calibration.Keys
  }

  /** The same three metric keys index the decimal places, the calibration
      table and the axis defaults, and the metric names are those keys. */
  lemma DefaultTablesShareKeys()
    ensures DefaultSettings.decimalPlaces.Keys == MetricKeys
    ensures DefaultSettings.calibration.Keys == MetricKeys
    ensures DefaultAxisSettings.Keys == MetricKeys
    ensures forall m: Metric :: m.Key() in MetricKeys
    ensures Complete(DefaultSettings)
    ensures forall m :: m in DefaultSettings.decimalPlaces ==> DefaultSettings.decimalPlaces[m] == 3
    ensures forall m :: m in DefaultSettings.decimalPlaces ==> 0 <= DefaultSettings.decimalPlaces[m] <= 12
  {
  }

  /** Every default axis entry has every field present and empty. */
  lemma DefaultAxisAllEmpty()
    ensures forall k, f :: k in DefaultAxisSettings ==> BoundField(DefaultAxisSettings[k], f) == Some("")
  {
  }
}
