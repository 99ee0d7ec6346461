/** The settings editor (sensor-dashboard/src/components/SettingsModal.jsx): a
    working copy of the settings that the form's handlers update one field at a
    time, handed to the parent only when the user saves. */
module SettingsModal {
  import opened Values
  import opened Defaults

  /** The two top-level keys the unit radio buttons write. */
  datatype UnitKey = TemperatureUnit | PressureUnit

  /** The two fields of a calibration entry. */
  datatype CoefficientField = Scale | Offset

  /** How the editor is left: `onSave(tempSettings)`, or `onClose()` (the
      Cancel button, the close button and a click on the overlay). */
  datatype Outcome = Save(settings: Settings) | Close

  /** `{ ...prev, [key]: value }` */
  function WithUnit(s: Settings, key: UnitKey, value: string): (r: Settings)
    ensures r.temperatureUnit == (if key == TemperatureUnit then value else s.temperatureUnit)
    ensures r.pressureUnit == (if key == PressureUnit then value else s.pressureUnit)
    ensures r.decimalPlaces == s.decimalPlaces && r.calibration == s.calibration
  {
    match key
    case TemperatureUnit => s.(temperatureUnit := value)
    case PressureUnit => s.(pressureUnit := value)
  }

  /** `Math.max(0, Math.min(12, parseInt(value) || 0))`, where `parsed` is what
      `parseInt` gave (None for NaN). */
  function ClampDecimal(parsed: Option<int>): (r: int)
    ensures 0 <= r <= 12
    ensures parsed.None? ==> r == 0
    ensures parsed.Some? && 0 <= parsed.value <= 12 ==> r == parsed.value
    ensures parsed.Some? && parsed.value < 0 ==> r == 0
    ensures parsed.Some? && parsed.value > 12 ==> r == 12
  {
    var n := parsed.GetOr(0);
    if n < 0 then 0 else if n > 12 then 12 else n
  }

  /** `{ ...prev, decimalPlaces: { ...prev.decimalPlaces, [metric]: places } }` */
  function WithDecimalPlaces(s: Settings, metric: string, places: int): (r: Settings)
    ensures r.decimalPlaces.Keys == s.decimalPlaces.Keys + {metric}
    ensures r.decimalPlaces[metric] == places
    ensures forall m :: m in s.decimalPlaces && m != metric ==> r.decimalPlaces[m] == s.decimalPlaces[m]
    ensures r.temperatureUnit == s.temperatureUnit && r.pressureUnit == s.pressureUnit
    ensures r.calibration == s.calibration
  {
    s.(decimalPlaces := s.decimalPlaces[metric := places])
  }

  /** `Number.isFinite(parseFloat(value)) ? parseFloat(value) : (field === 'scale' ? 1 : 0)`,
      where `parsed` is what `parseFloat` gave. */
  function CoefficientValue(field: CoefficientField, parsed: Num): (r: real)
    ensures parsed.Finite? ==> r == parsed.value
    ensures parsed.NonFinite? && field == Scale ==> r == 1.0
    ensures parsed.NonFinite? && field == Offset ==> r == 0.0
  {
    match parsed
    case Finite(x) => x
    case NonFinite => if field == Scale then 1.0 else 0.0
  }

  /** `prev.calibration?.[metric]` as spread: a missing entry has no fields. */
  function EntryOrEmpty(calibration: map<string, Coefficients>, metric: string): Coefficients {
    if metric in calibration then calibration[metric] else Coefficients(NonFinite, NonFinite)
  }

  /** `{ ...prev, calibration: { ...prev.calibration, [metric]: { ...prev.calibration?.[metric], [field]: c } } }` */
  function WithCoefficient(s: Settings, metric: string, field: CoefficientField, c: real): (r: Settings)
    ensures r.calibration.Keys == s.calibration.Keys + {metric}
    ensures r.calibration[metric].scale == (if field == Scale then Finite(c) else EntryOrEmpty(s.calibration, metric).scale)
    ensures r.calibration[metric].offset == (if field == Offset then Finite(c) else EntryOrEmpty(s.calibration, metric).offset)
    ensures forall m :: m in s.calibration && m != metric ==> r.calibration[m] == s.calibration[m]
    ensures r.temperatureUnit == s.temperatureUnit && r.pressureUnit == s.pressureUnit
    ensures r.decimalPlaces == s.decimalPlaces
  {
    var prev := EntryOrEmpty(s.calibration, metric);
    var entry := match field
      case Scale => prev.(scale := Finite(c))
      case Offset => prev.(offset := Finite(c));
    s.(calibration := s.calibration[metric := entry])
  }

  class Editor {
    /** `tempSettings`: the working copy the form shows and edits. */
    var tempSettings: Settings

    /** `useState(settings)`: the working copy starts as the settings given. */
    constructor (settings: Settings)
      ensures tempSettings == settings
    {
      tempSettings := settings;
    }

    /** `handleChange(key, value)` */
    method HandleChange(key: UnitKey, value: string)
      modifies this
      ensures tempSettings == WithUnit(old(tempSettings), key, value)
      ensures Complete(old(tempSettings)) ==> Complete(tempSettings)
    {
      tempSettings := WithUnit(tempSettings, key, value);
    }

    /** `handleDecimalChange(metric, value)`; `parseInt` stands for the
        JavaScript function of that name (None for NaN). */
    method HandleDecimalChange(metric: string, value: string, parseInt: string -> Option<int>)
      modifies this
      ensures tempSettings == WithDecimalPlaces(old(tempSettings), metric, ClampDecimal(parseInt(value)))
      ensures 0 <= tempSettings.decimalPlaces[metric] <= 12
      ensures Complete(old(tempSettings)) ==> Complete(tempSettings)
    {
      var places := ClampDecimal(parseInt(value));
      tempSettings := WithDecimalPlaces(tempSettings, metric, places);
    }

    /** `handleCalibrationChange(metric, field, value)`; `parseFloat` stands
        for the JavaScript function of that name. */
    method HandleCalibrationChange(metric: string, field: CoefficientField, value: string, parseFloat: string -> Num)
      modifies this
      ensures tempSettings == WithCoefficient(old(tempSettings), metric, field, CoefficientValue(field, parseFloat(value)))
      ensures field == Scale ==> tempSettings.calibration[metric].scale.Finite?
      ensures field == Offset ==> tempSettings.calibration[metric].offset.Finite?
      ensures Complete(old(tempSettings)) ==> Complete(tempSettings)
    {
      var c := CoefficientValue(field, parseFloat(value));
      tempSettings := WithCoefficient(tempSettings, metric, field, c);
    }

    /** `handleReset()` */
    method HandleReset()
      modifies this
      ensures tempSettings == DefaultSettings
      ensures Complete(tempSettings)
      ensures forall m :: m in tempSettings.decimalPlaces ==> 0 <= tempSettings.decimalPlaces[m] <= 12
    {
      tempSettings := DefaultSettings;
      DefaultTablesShareKeys();
    }

    /** The Save button: `onSave(tempSettings)`. */
    method SaveClicked() returns (outcome: Outcome)
      ensures outcome == Save(tempSettings)
    {
      outcome := Save(tempSettings);
    }

    /** The Cancel button, the close button and the overlay: `onClose()`,
        which hands nothing back. */
    method CloseClicked() returns (outcome: Outcome)
      ensures outcome == Close
    {
      outcome := Close;
    }
  }

  /** A decimal-places edit stores the clamped parse, 0 for unparsable input,
      and leaves every other metric as it was. */
  lemma DecimalEditExamples(s: Settings)
    requires "humidity" in s.decimalPlaces
    ensures WithDecimalPlaces(s, "temperature", ClampDecimal(None)).decimalPlaces["temperature"] == 0
    ensures WithDecimalPlaces(s, "temperature", ClampDecimal(Some(40))).decimalPlaces["temperature"] == 12
    ensures WithDecimalPlaces(s, "temperature", ClampDecimal(Some(-2))).decimalPlaces["humidity"] == s.decimalPlaces["humidity"]
  {
  }

  /** A calibration edit keeps the other coefficient of the metric; on a
      metric that had no entry, the other coefficient stays absent and the
      calibration then falls back for it. */
  lemma CalibrationEditKeepsOtherField(s: Settings, metric: string, c: real)
    ensures metric in s.calibration ==>
              WithCoefficient(s, metric, Scale, c).calibration[metric] == Coefficients(Finite(c), s.calibration[metric].offset)
    ensures metric !in s.calibration ==>
              WithCoefficient(s, metric, Offset, c).calibration[metric] == Coefficients(NonFinite, Finite(c))
  {
  }
}
