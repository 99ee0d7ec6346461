# Sensor dashboard: display pipeline and preferences

A model of the front end of a weather-sensor dashboard (`sensor-dashboard/src`):

- **Conversions** (`utils/conversions.js`): a per-metric linear calibration
  `value * scale + offset` in the sensor's base unit, then conversion into the
  display unit (Celsius, Fahrenheit or kelvin; hectopascals or pascals).
- **Formatting** (`utils/formatting.js`): the "last update" text, the axis
  tick formatter, the parsers of the axis-override inputs and the rounding of
  a Y domain to whole numbers.
- **ChartCard** (`components/ChartCard.jsx`, lines 17-64): how a history
  chart converts its series, computes the automatic X and Y domains, lets the
  stored axis overrides replace them, and which updates its inputs emit.
- **SettingsModal** (`components/SettingsModal.jsx`): the editor's working
  copy of the settings as a class whose handlers update it one field at a
  time, and the Save / Cancel outcome.
- **App** (`App.jsx`): the start-up merge of the stored settings over the
  defaults, the axis-settings initialiser, `saveSettings`,
  `updateAxisSettings`, and the props each chart receives. The dashboard's
  state and its two browser-storage entries are the fields of a `Dashboard`
  class. Its invariant `ReloadConsistent` says that loading the page again
  would rebuild the state in use. Every operation keeps that invariant,
  provided each saved settings value covers the three metrics.
- **Defaults** (`constants/settings.js`): the settings and axis defaults.

JavaScript numbers are modelled as `Num`, either a finite real or
`NonFinite`. `NonFinite` stands for NaN and both infinities, which no branch
of the core tells apart. `null` and `undefined` are `None`. Finite arithmetic
is exact.

The browser's parsers and formatters are parameters of the functions that use
them: `Number`, `parseFloat`, `parseInt`, `new Date(s).getTime()`,
`toLocaleTimeString` and `toLocaleString`. The same goes for the current
time.

Two behaviours of the code that are easy to miss:

- **Settings merge.** At start-up, `decimalPlaces` and `calibration` are
  merged per metric (`App.jsx`, lines 31-38). A stored metric entry replaces the default entry whole;
  its fields are not merged one by one. A stored calibration entry that lacks
  a field therefore lacks it at run time. `ApplyCalibration` then falls back
  to 1 for a missing scale and to 0 for a missing offset.
- **Default temperature unit.** In `constants/settings.js`, line 2, it is spelt as the
  three characters U+00C2 U+00B0 `C`, a doubly encoded degree sign. The
  converter tests for the two characters `°C`, so it does not recognise the
  default. The default unit takes the pass-through branch, which gives the
  same number. `DefaultDisplayIsIdentity` states this.

## Model

| member | source | states |
|---|---|---|
| Defaults.DefaultTablesShareKeys | sensor-dashboard/src/constants/settings.js:1-20 | the decimal-places table, the calibration table and the axis defaults are all keyed by exactly the three metric names; the default settings cover every metric; every default number of decimal places is 3, inside the editor's 0..12 range |
| Defaults.DefaultAxisAllEmpty | sensor-dashboard/src/constants/settings.js:16-20 | every default axis entry has all four fields present and empty (auto) |
| Conversions.FiniteOr | sensor-dashboard/src/utils/conversions.js:4-5 | a finite coefficient is used as it is, a non-finite or missing one is replaced by its fallback |
| Conversions.ApplyCalibration | sensor-dashboard/src/utils/conversions.js:1-7 | null in, null out; finiteness is preserved; a finite value becomes `value * scale + offset` with the effective scale and offset |
| Conversions.CalibrationIdentityWithoutEntry | sensor-dashboard/src/utils/conversions.js:3 | a metric with no calibration entry is left unchanged |
| Conversions.CalibrationFallbacksIndependent | sensor-dashboard/src/utils/conversions.js:3-6 | a non-finite scale falls back to 1 and a non-finite offset to 0, each independently of the other |
| Conversions.CalibrationInvertible | sensor-dashboard/src/utils/conversions.js:6 | with a non-zero effective scale, `(calibrated - offset) / scale` recovers the raw value |
| Conversions.ConvertTemperature | sensor-dashboard/src/utils/conversions.js:9-15 | null in, null out; finiteness is preserved; converting the result back to Celsius gives the input; any unit other than °F and K passes the value through |
| Conversions.TemperatureExamples | sensor-dashboard/src/utils/conversions.js:9-15 | 20 °C is shown as 20, 68 and 293.15 in °C, °F and K; an unknown unit passes it through |
| Conversions.TemperatureOrderPreserved | sensor-dashboard/src/utils/conversions.js:9-15 | every unit keeps the order of temperatures |
| Conversions.ConvertPressure | sensor-dashboard/src/utils/conversions.js:17-22 | null in, null out; finiteness is preserved; converting the result back to hectopascals gives the input; any unit other than Pa passes the value through |
| Conversions.PressureExamples | sensor-dashboard/src/utils/conversions.js:17-22 | 1013.25 hPa is shown as 1013.25 in hPa, 101325 in Pa, and unchanged for an unknown unit |
| Conversions.TemperatureDisplay | sensor-dashboard/src/utils/conversions.js:24-27 | converting the displayed value back to Celsius gives the calibrated reading; null and non-finite readings stay so |
| Conversions.HumidityDisplay | sensor-dashboard/src/utils/conversions.js:29-31 | the displayed humidity is the calibrated reading |
| Conversions.PressureDisplay | sensor-dashboard/src/utils/conversions.js:33-36 | converting the displayed value back to hectopascals gives the calibrated reading |
| Conversions.Display | sensor-dashboard/src/App.jsx:149-171 | the display value each chart's converter gives: null exactly for null readings, finite exactly for finite ones |
| Conversions.CalibrateBeforeConvert | sensor-dashboard/src/utils/conversions.js:24-27 | with scale 2 and offset 5, a raw 10 °C shown in °F is 77, not 105 |
| Conversions.HumidityIgnoresUnits | sensor-dashboard/src/utils/conversions.js:29-31 | the humidity display does not depend on either unit preference |
| Conversions.DefaultCalibrationIsIdentity | sensor-dashboard/src/constants/settings.js:9-13 | the default calibration leaves every metric's reading unchanged |
| Conversions.DefaultDisplayIsIdentity | sensor-dashboard/src/constants/settings.js:1-14 | the default temperature unit is none of °C, °F and K; under the defaults every metric is shown exactly as read |
| Formatting.DecimalString | sensor-dashboard/src/utils/formatting.js:7 | a non-negative integer renders as a non-empty string of decimal digits with no leading zero |
| Formatting.DecimalStringValue | sensor-dashboard/src/utils/formatting.js:7 | reading the rendered digits back gives the number |
| Formatting.FormatLastUpdate | sensor-dashboard/src/utils/formatting.js:1-9 | no date gives "Never"; under 5 s elapsed (including a date in the future) gives "Just now"; under an hour gives the whole minutes followed by "m ago"; otherwise the locale time of the date |
| Formatting.LastUpdateEdges | sensor-dashboard/src/utils/formatting.js:4-7 | 5 s and 59.999 s read "0m ago", 60 s reads "1m ago", a future date reads "Just now" |
| Formatting.TimeFormatter | sensor-dashboard/src/utils/formatting.js:11-20 | a non-finite value gives the empty string, a finite one its locale rendering |
| Formatting.ParseDateInput | sensor-dashboard/src/utils/formatting.js:22-26 | a result exactly when the input is present, non-empty and parses to a finite time, and then that time |
| Formatting.ParseNumberInput | sensor-dashboard/src/utils/formatting.js:28-32 | a result exactly when the input is present, non-empty and parses to a finite number, and then that number; the empty string is absent |
| Formatting.Floor | sensor-dashboard/src/utils/formatting.js:45 | the greatest integer not above x |
| Formatting.Ceil | sensor-dashboard/src/utils/formatting.js:45 | the least integer not below x |
| Formatting.Round | sensor-dashboard/src/utils/formatting.js:41 | the integer within half of x, halves rounded up |
| Formatting.RoundDomainToWhole | sensor-dashboard/src/utils/formatting.js:34-46 | a domain with an 'auto' side is returned unchanged; otherwise both bounds are whole; a flat domain becomes a width-2 interval around its rounded value that strictly encloses it; any other domain becomes the floor of its low side and the ceiling of its high side |
| Formatting.WholeDomainIsFixed | sensor-dashboard/src/utils/formatting.js:45 | a whole, non-flat domain is left as it is |
| Formatting.RoundDomainIdempotent | sensor-dashboard/src/utils/formatting.js:34-46 | rounding an ordered domain twice gives the same as rounding it once |
| Formatting.RoundDomainExamples | sensor-dashboard/src/utils/formatting.js:34-46 | [2.1, 2.1] gives [1, 3]; [2.5, 2.5] gives [2, 4]; [-2.5, -2.5] gives [-3, -1]; [1.2, 4.8] gives [1, 5]; an auto domain is kept |
| ChartCard.WithField | sensor-dashboard/src/components/ChartCard.jsx:18-20 | the entry with the chart's field replaced and every other field kept |
| ChartCard.DisplayData | sensor-dashboard/src/components/ChartCard.jsx:18-21 | same length and order; without a converter, the data itself; with one, each entry's chart field is the converted original and every other field is kept |
| ChartCard.Finites | sensor-dashboard/src/components/ChartCard.jsx:31-33 | the result holds the same set of finite numbers as the list, and is no longer than it |
| ChartCard.SafeAxisSettings | sensor-dashboard/src/components/ChartCard.jsx:23 | the chart's stored entry when there is one, else an entry with all four fields empty |
| ChartCard.Timestamps | sensor-dashboard/src/components/ChartCard.jsx:31-33 | a number is among the timestamps exactly when some entry has it as its finite `timestampMs` |
| ChartCard.YValues | sensor-dashboard/src/components/ChartCard.jsx:44-46 | a number is among the Y values exactly when some entry has it as its finite reading of the chart's metric |
| ChartCard.MinOf | sensor-dashboard/src/components/ChartCard.jsx:36 | an element of the list that is not above any element |
| ChartCard.MaxOf | sensor-dashboard/src/components/ChartCard.jsx:36 | an element of the list that is not below any element |
| ChartCard.AutoDomain | sensor-dashboard/src/components/ChartCard.jsx:35-37 | ['auto', 'auto'] exactly when there are no values; otherwise two of the values that enclose all of them |
| ChartCard.AutoDomainOrdered | sensor-dashboard/src/components/ChartCard.jsx:48-50 | the automatic domain never has its low side above its high side |
| ChartCard.OrAuto | sensor-dashboard/src/components/ChartCard.jsx:39 | a number exactly when the override parsed, and then that number; otherwise 'auto' |
| ChartCard.ResolveXDomain | sensor-dashboard/src/components/ChartCard.jsx:39-42 | with no X override, the automatic domain; with at least one, each side is its own override or 'auto' |
| ChartCard.ResolveYDomain | sensor-dashboard/src/components/ChartCard.jsx:53-56 | each side is its own override when it has one, else that side of the whole-number domain |
| ChartCard.Domains | sensor-dashboard/src/components/ChartCard.jsx:23-56 | with no parsed X override the X domain is the automatic one, otherwise each side is its own override or 'auto'; each Y side is its own parsed override, else that side of the whole-number automatic domain; the lemmas below derive from this the enclosure of every finite reading and timestamp, the 'auto' domains of empty series and the meaning of empty settings |
| ChartCard.NoFinitesIsEmpty | sensor-dashboard/src/components/ChartCard.jsx:31-33 | a list with no finite number filters down to the empty list |
| ChartCard.NoSettingsMeansAuto | sensor-dashboard/src/components/ChartCard.jsx:23-56 | missing and all-empty axis settings both give the automatic X domain and the whole-number automatic Y domain |
| ChartCard.OneSidedXOverride | sensor-dashboard/src/components/ChartCard.jsx:39-42 | a lone X minimum gives [that time, 'auto'] whatever the data |
| ChartCard.NoFiniteReadingsMeansAutoY | sensor-dashboard/src/components/ChartCard.jsx:44-56 | with no Y override, a series without a finite reading gives ['auto', 'auto'] on the Y axis |
| ChartCard.NoFiniteTimestampsMeansAutoX | sensor-dashboard/src/components/ChartCard.jsx:31-42 | with no X override, a series without a finite timestamp gives ['auto', 'auto'] on the X axis |
| ChartCard.YDomainEnclosesReadings | sensor-dashboard/src/components/ChartCard.jsx:44-56 | with no Y override, the Y domain has whole bounds that enclose every finite displayed reading |
| ChartCard.XDomainEnclosesTimestamps | sensor-dashboard/src/components/ChartCard.jsx:31-42 | with no X override, the X domain encloses every finite timestamp |
| ChartCard.HandleAxisChange | sensor-dashboard/src/components/ChartCard.jsx:58-60 | the update names the changed field with the new value and no other field |
| ChartCard.HandleReset | sensor-dashboard/src/components/ChartCard.jsx:62-64 | the update sets all four fields to the empty string |
| SettingsModal.WithUnit | sensor-dashboard/src/components/SettingsModal.jsx:7-12 | only the named unit key takes the new value |
| SettingsModal.ClampDecimal | sensor-dashboard/src/components/SettingsModal.jsx:19 | always in 0..12; an unparsable input gives 0; an in-range value is kept; values out of range are clamped to the nearer end |
| SettingsModal.WithDecimalPlaces | sensor-dashboard/src/components/SettingsModal.jsx:14-22 | the metric's places take the new value; other metrics and keys are kept |
| SettingsModal.CoefficientValue | sensor-dashboard/src/components/SettingsModal.jsx:31 | a finite parse is used as it is; otherwise 1 for a scale and 0 for an offset |
| SettingsModal.WithCoefficient | sensor-dashboard/src/components/SettingsModal.jsx:24-35 | the metric's named coefficient takes the new value; its other coefficient, the other metrics and the other keys are kept |
| SettingsModal.Editor.constructor | sensor-dashboard/src/components/SettingsModal.jsx:5 | the working copy starts as the settings given |
| SettingsModal.Editor.HandleChange | sensor-dashboard/src/components/SettingsModal.jsx:7-12 | the new working copy is the old one with the unit set; it still covers every metric if it did before |
| SettingsModal.Editor.HandleDecimalChange | sensor-dashboard/src/components/SettingsModal.jsx:14-22 | the new working copy is the old one with the metric's places set to the clamped parse, which is in 0..12 |
| SettingsModal.Editor.HandleCalibrationChange | sensor-dashboard/src/components/SettingsModal.jsx:24-35 | the new working copy is the old one with the coefficient set, and the edited coefficient is finite |
| SettingsModal.Editor.HandleReset | sensor-dashboard/src/components/SettingsModal.jsx:37-39 | the working copy becomes the defaults, which cover every metric with decimal places inside 0..12 |
| SettingsModal.Editor.SaveClicked | sensor-dashboard/src/components/SettingsModal.jsx:170 | the editor hands back its working copy |
| SettingsModal.Editor.CloseClicked | sensor-dashboard/src/components/SettingsModal.jsx:169 | the editor hands back nothing |
| SettingsModal.DecimalEditExamples | sensor-dashboard/src/components/SettingsModal.jsx:19 | unparsable input gives 0, 40 gives 12, and other metrics are untouched |
| SettingsModal.CalibrationEditKeepsOtherField | sensor-dashboard/src/components/SettingsModal.jsx:29-32 | an edit keeps the metric's other coefficient; on a metric without an entry, the other coefficient stays absent |
| App.Serialized | sensor-dashboard/src/App.jsx:72 | the stored blob holds every key of the settings with its value, so the blob read back at lines 26-27 has all four keys present |
| App.InitialSettings | sensor-dashboard/src/App.jsx:25-40 | with nothing stored, the defaults; the result always covers every metric; each stored top-level unit overrides the default; decimal places and calibration are merged per metric, a stored metric entry replacing the default's |
| App.InitialAxisSettings | sensor-dashboard/src/App.jsx:21-24 | the stored table as a whole if there is one, else the defaults |
| App.ReloadAfterSave | sensor-dashboard/src/App.jsx:25-40 | settings covering every metric load back unchanged after they are stored |
| App.LoadSaveLoad | sensor-dashboard/src/App.jsx:25-40 | storing the loaded settings and loading again gives the same settings |
| App.Overlay | sensor-dashboard/src/App.jsx:79-83 | each field comes from the upper entry when it has it, else from the lower |
| App.UpdatedAxisTable | sensor-dashboard/src/App.jsx:75-89 | the key set gains the chart's key; other charts are unchanged; each field of the chart comes from the update, else from the previous entry, else from the default entry |
| App.AxisChangeTouchesOneField | sensor-dashboard/src/App.jsx:75-89 | a one-field edit sets that field and keeps every other field the chart had |
| App.UpdatedEntryHasEveryField | sensor-dashboard/src/App.jsx:79-83 | after any update, each of the three charts has all four fields present |
| App.AxisEntry | sensor-dashboard/src/App.jsx:151 | the chart's entry of the axis table when the table has the metric's key, else nothing |
| App.Chart | sensor-dashboard/src/App.jsx:143-175 | with no X override a chart's X domain is the automatic domain of the raw history's timestamps, which the conversion leaves alone; with no Y override its Y domain is the whole-number rounding of the range of the metric's finite display values |
| App.ShownTimestamps | sensor-dashboard/src/components/ChartCard.jsx:18-21 | converting a series' readings leaves its finite timestamps the same |
| App.ChartEnclosesDisplayedReadings | sensor-dashboard/src/App.jsx:142-175 | with no Y override, each chart's Y domain encloses the calibrated and converted value of every finite reading |
| App.ResetRestoresAutoDomains | sensor-dashboard/src/App.jsx:151-152 | after a chart's reset, the chart shows its automatic domains again, whatever the overrides were |
| App.Dashboard.constructor | sensor-dashboard/src/App.jsx:21-40 | the state is what the two initialisers build from the stored entries, so it is reload-consistent |
| App.Dashboard.SaveSettings | sensor-dashboard/src/App.jsx:70-73 | the settings and the stored entry both become the new settings; the axis state is untouched; reload consistency is kept for settings that cover every metric |
| App.Dashboard.UpdateAxisSettings | sensor-dashboard/src/App.jsx:75-89 | the axis state becomes the updated table, which is also stored; the settings are untouched; reload consistency is kept |
| App.Dashboard.SettingsClosed | sensor-dashboard/src/App.jsx:115-118 | a save stores and applies the editor's settings; closing changes nothing |
| App.EditAndSave | sensor-dashboard/src/App.jsx:114-118 | opening the editor, changing one metric's decimal places and saving leaves the dashboard using and storing exactly the edited settings, still reload-consistent |

## Left out

- The Python sensor and API scripts are outside the front end modelled here.
- `utils/api.js` is not part of this model. This covers fetching, the history normaliser that builds the chart entries and `timestampMs`, and error handling. The chart entries are taken as given.
- `MetricCard.jsx` is not part of this model. It only renders a number with a fixed precision.
- Rendering is left out: JSX, recharts, the inputs' displayed values and the `showAxisSettings` and `showSettings` toggles.
- Polling, the five-second interval, the async fetches and the error banner are I/O.
- The store's contents are assumed to be well-formed JSON with the expected value types. A corrupt entry, a stored `null` or extra stored keys are not modelled.
- Axis entries with non-string field values are not modelled.
- The locale-dependent strings (`toLocaleTimeString`, `toLocaleString('en-AU', …)`) and the browser parsers (`Number`, `parseFloat`, `parseInt`, `Date`) are parameters, not definitions.
- IEEE floating point is not modelled. This covers rounding, overflow to infinity and the distinction between NaN and the infinities. Finite arithmetic is exact real arithmetic, so 20 °C is exactly 293.15 K.
- RoundDomainIdempotent: stated for ordered domains only. A reversed domain such as [3, 2.5] rounds to [3, 3] and then to [2, 4]. Every domain built from data is ordered (`ChartCard.AutoDomainOrdered`).
- App.Dashboard.SaveSettings: reload consistency is promised only for settings that cover all three metrics. The editor never removes a metric, so settings that came from it always cover all three.
