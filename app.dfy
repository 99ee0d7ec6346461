/** The dashboard's preference state (sensor-dashboard/src/App.jsx): the display
    settings and the per-chart axis overrides, each built at startup from the
    browser's key-value store and written back to it on every change. */
module App {
  import opened Values
  import opened Defaults
  import Conversions
  import ChartCard
  import SettingsModal
  import Formatting

  /** What `JSON.parse` gives back for the stored display settings: any of the
      keys may be missing (None). */
  datatype SavedSettings = SavedSettings(
    temperatureUnit: Option<string>,
    pressureUnit: Option<string>,
    decimalPlaces: Option<map<string, int>>,
    calibration: Option<map<string, Coefficients>>)

  /** `{}`: nothing stored under 'weatherSettings'. */
  const NothingSaved: SavedSettings := SavedSettings(None, None, None, None)

  /** `JSON.parse(JSON.stringify(s))`: every key present, the values as they were. */
  function Serialized(s: Settings): (saved: SavedSettings)
    ensures saved.temperatureUnit == Some(s.temperatureUnit) && saved.pressureUnit == Some(s.pressureUnit)
    ensures saved.decimalPlaces == Some(s.decimalPlaces) && saved.calibration == Some(s.calibration)
  {
    SavedSettings(Some(s.temperatureUnit), Some(s.pressureUnit), Some(s.decimalPlaces), Some(s.calibration))
  }

  // ---------------------------------------------------------------------------
  // Startup

  /** The settings initialiser: the defaults, then the stored top-level keys
      over them, except that `decimalPlaces` and `calibration` are merged per
      metric (a stored metric entry replacing the default entry whole). */
  function InitialSettings(saved: Option<SavedSettings>): (s: Settings)
    ensures saved.None? ==> s == DefaultSettings
    ensures Complete(s)
    ensures var base := saved.GetOr(NothingSaved);
            && s.temperatureUnit == (if base.temperatureUnit.Some? then base.temperatureUnit.value else DefaultSettings.temperatureUnit)
            && s.pressureUnit == (if base.pressureUnit.Some? then base.pressureUnit.value else DefaultSettings.pressureUnit)
    ensures var saved := saved.GetOr(NothingSaved).decimalPlaces.GetOr(map[]);
            && s.decimalPlaces.Keys == DefaultSettings.decimalPlaces.Keys + saved.Keys
            && (forall m :: m in saved ==> s.decimalPlaces[m] == saved[m])
            && (forall m :: m in DefaultSettings.decimalPlaces && m !in saved ==> s.decimalPlaces[m] == DefaultSettings.decimalPlaces[m])
    ensures var saved := saved.GetOr(NothingSaved).calibration.GetOr(map[]);
            && s.calibration.Keys == DefaultSettings.calibration.Keys + saved.Keys
            && (forall m :: m in saved ==> s.calibration[m] == saved[m])
            && (forall m :: m in DefaultSettings.calibration && m !in saved ==> s.calibration[m] == DefaultSettings.calibration[m])
  {
    DefaultTablesShareKeys();
    var base := saved.GetOr(NothingSaved);
    Settings(
      base.temperatureUnit.GetOr(DefaultSettings.temperatureUnit),
      base.pressureUnit.GetOr(DefaultSettings.pressureUnit),
      DefaultSettings.decimalPlaces + base.decimalPlaces.GetOr(map[]),
      DefaultSettings.calibration + base.calibration.GetOr(map[]))
  }

  /** The axis-settings initialiser: the stored table whole if there is one,
      else the defaults; the two are not merged. */
  function InitialAxisSettings(saved: Option<AxisTable>): (t: AxisTable)
    ensures saved.Some? ==> t == saved.value
    ensures saved.None? ==> t == DefaultAxisSettings
  {
    saved.GetOr(DefaultAxisSettings)
  }

  /** Settings that cover every metric survive a save and a reload unchanged. */
  lemma ReloadAfterSave(s: Settings)
    requires Complete(s)
    ensures InitialSettings(Some(Serialized(s))) == s
  {
  }

  /** Loading, saving what was loaded and loading again gives the same settings. */
  lemma LoadSaveLoad(saved: Option<SavedSettings>)
    ensures InitialSettings(Some(Serialized(InitialSettings(saved)))) == InitialSettings(saved)
  {
  }

  // ---------------------------------------------------------------------------
  // Axis-settings updates

  /** An entry with no fields at all: what spreading `undefined` contributes. */
  const NoFields: AxisBounds := AxisBounds(None, None, None, None)

  /** `table[key]` as spread: a missing entry contributes no fields. */
  function EntryOrNone(table: AxisTable, key: string): AxisBounds {
    if key in table then table[key] else NoFields
  }

  /** `{ ...under, ...over }`: each field from `over` when it has it. */
  function Overlay(under: AxisBounds, over: AxisBounds): (r: AxisBounds)
    ensures forall f :: BoundField(r, f) == (if BoundField(over, f).Some? then BoundField(over, f) else BoundField(under, f))
  {
    AxisBounds(
      if over.xMin.Some? then over.xMin else under.xMin,
      if over.xMax.Some? then over.xMax else under.xMax,
      if over.yMin.Some? then over.yMin else under.yMin,
      if over.yMax.Some? then over.yMax else under.yMax)
  }

  /** The table `updateAxisSettings(chartKey, updates)` computes from `prev`:
      only the entry `chartKey` changes, and within it each field comes from
      the update, else from the previous entry, else from the defaults. */
  function UpdatedAxisTable(prev: AxisTable, chartKey: string, updates: AxisBounds): (next: AxisTable)
    ensures next.Keys == prev.Keys + {chartKey}
    ensures forall k :: k in prev && k != chartKey ==> next[k] == prev[k]
    ensures forall f :: BoundField(next[chartKey], f) ==
              if BoundField(updates, f).Some? then BoundField(updates, f)
              else if BoundField(EntryOrNone(prev, chartKey), f).Some? then BoundField(EntryOrNone(prev, chartKey), f)
              else BoundField(EntryOrNone(DefaultAxisSettings, chartKey), f)
  {
    prev[chartKey := Overlay(Overlay(EntryOrNone(DefaultAxisSettings, chartKey), EntryOrNone(prev, chartKey)), updates)]
  }

  /** A one-field update from a chart sets that field of that chart and keeps
      every other field it had. */
  lemma AxisChangeTouchesOneField(prev: AxisTable, chartKey: string, field: AxisField, value: string)
    ensures var next := UpdatedAxisTable(prev, chartKey, ChartCard.HandleAxisChange(field, value));
            && BoundField(next[chartKey], field) == Some(value)
            && forall f :: f != field && BoundField(EntryOrNone(prev, chartKey), f).Some? ==>
                 BoundField(next[chartKey], f) == BoundField(EntryOrNone(prev, chartKey), f)
  {
  }

  /** Because the defaults are spread first, an update of one of the three
      charts leaves its entry with all four fields present, even when the
      previous table had no entry for it or a partial one. */
  lemma UpdatedEntryHasEveryField(prev: AxisTable, m: Metric, updates: AxisBounds)
    ensures forall f :: BoundField(UpdatedAxisTable(prev, m.Key(), updates)[m.Key()], f).Some?
  {
  }

  // ---------------------------------------------------------------------------
  // What the App hands each chart

  /** `axisSettings[m]`: the stored entry of the chart of `m`, if any. */
  function AxisEntry(axisSettings: AxisTable, m: Metric): (e: Option<AxisBounds>)
    ensures e.Some? <==> m.Key() in axisSettings
    ensures e.Some? ==> e.value == axisSettings[m.Key()]
  {
    if m.Key() in axisSettings then Some(axisSettings[m.Key()]) else None
  }

  /** The finite display values of metric `m` over the history: each reading
      calibrated and converted under `settings`, non-finite ones dropped. */
  function DisplayedValues(m: Metric, history: seq<ChartCard.Entry>, settings: Settings): seq<real> {
    ChartCard.Finites(seq(|history|, i requires 0 <= i < |history| => AsNum(Conversions.Display(m, ChartCard.Field(history[i], m), settings))))
  }

  /** Converting a reading leaves the timestamps alone. */
  lemma ShownTimestamps(history: seq<ChartCard.Entry>, shown: seq<ChartCard.Entry>, m: Metric)
    requires |shown| == |history|
    requires forall i :: 0 <= i < |history| ==> ChartCard.SameExcept(shown[i], history[i], m)
    ensures ChartCard.Timestamps(shown) == ChartCard.Timestamps(history)
  {
    assert seq(|shown|, i requires 0 <= i < |shown| => shown[i].timestampMs)
        == seq(|history|, i requires 0 <= i < |history| => history[i].timestampMs);
  }

  /** The chart of metric `m` as the App renders it: the history, the metric's
      display conversion and the chart's stored axis entry. */
  function Chart(
    m: Metric, history: seq<ChartCard.Entry>, settings: Settings, axisSettings: AxisTable,
    dateMs: string -> Num, toNumber: string -> Num): (r: ChartCard.ChartDomains)
    ensures var a := ChartCard.SafeAxisSettings(AxisEntry(axisSettings, m));
            Formatting.ParseDateInput(a.xMin, dateMs).None? && Formatting.ParseDateInput(a.xMax, dateMs).None? ==>
              r.x == ChartCard.AutoDomain(ChartCard.Timestamps(history))
    ensures var a := ChartCard.SafeAxisSettings(AxisEntry(axisSettings, m));
            Formatting.ParseNumberInput(a.yMin, toNumber).None? && Formatting.ParseNumberInput(a.yMax, toNumber).None? ==>
              r.y == Formatting.RoundDomainToWhole(ChartCard.AutoDomain(DisplayedValues(m, history, settings)))
  {
    var convert := Some((v: Option<Num>) => Conversions.Display(m, v, settings));
    var shown := ChartCard.DisplayData(history, m, convert);
    ShownTimestamps(history, shown, m);
    assert ChartCard.YValues(shown, m) == DisplayedValues(m, history, settings) by {
      var ys := seq(|shown|, i requires 0 <= i < |shown| => AsNum(ChartCard.Field(shown[i], m)));
      assert ys == seq(|history|, i requires 0 <= i < |history| => AsNum(Conversions.Display(m, ChartCard.Field(history[i], m), settings)));
    }
    ChartCard.Domains(
      history, m, Some((v: Option<Num>) => Conversions.Display(m, v, settings)),
      AxisEntry(axisSettings, m), dateMs, toNumber)
  }

  /** Without a Y override, each chart's Y axis spans the display value (the
      calibrated and converted reading) of every entry that has a finite one. */
  lemma ChartEnclosesDisplayedReadings(
    m: Metric, history: seq<ChartCard.Entry>, settings: Settings, axisSettings: AxisTable,
    dateMs: string -> Num, toNumber: string -> Num, i: int)
    requires 0 <= i < |history|
    requires Conversions.Display(m, ChartCard.Field(history[i], m), settings).Some?
    requires Conversions.Display(m, ChartCard.Field(history[i], m), settings).value.Finite?
    requires Formatting.ParseNumberInput(ChartCard.SafeAxisSettings(AxisEntry(axisSettings, m)).yMin, toNumber).None?
    requires Formatting.ParseNumberInput(ChartCard.SafeAxisSettings(AxisEntry(axisSettings, m)).yMax, toNumber).None?
    ensures var d := Chart(m, history, settings, axisSettings, dateMs, toNumber).y;
            var y := Conversions.Display(m, ChartCard.Field(history[i], m), settings).value.value;
            d.lo.At? && d.hi.At? && d.lo.x <= y <= d.hi.x
  {
    var convert := Some((v: Option<Num>) => Conversions.Display(m, v, settings));
    assert ChartCard.HasFiniteReading(ChartCard.DisplayData(history, m, convert), m, i);
    ChartCard.YDomainEnclosesReadings(history, m, convert, AxisEntry(axisSettings, m), dateMs, toNumber, i);
  }

  /** After a chart's "Reset to auto", that chart shows its automatic domains
      again, whatever its overrides were before. */
  lemma ResetRestoresAutoDomains(
    m: Metric, history: seq<ChartCard.Entry>, settings: Settings, prev: AxisTable,
    dateMs: string -> Num, toNumber: string -> Num)
    ensures var next := UpdatedAxisTable(prev, m.Key(), ChartCard.HandleReset());
            var shown := ChartCard.DisplayData(history, m, Some((v: Option<Num>) => Conversions.Display(m, v, settings)));
            Chart(m, history, settings, next, dateMs, toNumber)
            == ChartCard.ChartDomains(
                 ChartCard.AutoDomain(ChartCard.Timestamps(shown)),
                 Formatting.RoundDomainToWhole(ChartCard.AutoDomain(ChartCard.YValues(shown, m))))
  {
  }

  // ---------------------------------------------------------------------------
  // The stateful part

  class Dashboard {
    /** The display settings in use. */
    var settings: Settings
    /** The axis overrides per chart in use. */
    var axisSettings: AxisTable
    /** The store's 'weatherSettings' entry, parsed (None when absent). */
    var storedSettings: Option<SavedSettings>
    /** The store's 'chartAxisSettings' entry, parsed (None when absent). */
    var storedAxisSettings: Option<AxisTable>

    /** Loading the page now would rebuild exactly the state in use. */
    ghost predicate ReloadConsistent()
      reads this
    {
      settings == InitialSettings(storedSettings) && axisSettings == InitialAxisSettings(storedAxisSettings)
    }

    /** The two `useState` initialisers, reading what the store holds. */
    constructor (storedSettings: Option<SavedSettings>, storedAxisSettings: Option<AxisTable>)
      ensures this.storedSettings == storedSettings && this.storedAxisSettings == storedAxisSettings
      ensures settings == InitialSettings(storedSettings)
      ensures axisSettings == InitialAxisSettings(storedAxisSettings)
      ensures ReloadConsistent()
    {
      this.storedSettings := storedSettings;
      this.storedAxisSettings := storedAxisSettings;
      settings := InitialSettings(storedSettings);
      axisSettings := InitialAxisSettings(storedAxisSettings);
    }

    /** `saveSettings(newSettings)`: the state and the stored blob both become
        `newSettings`; the axis overrides are untouched. */
    method SaveSettings(newSettings: Settings)
      modifies this
      ensures settings == newSettings && storedSettings == Some(Serialized(newSettings))
      ensures axisSettings == old(axisSettings) && storedAxisSettings == old(storedAxisSettings)
      ensures old(ReloadConsistent()) && Complete(newSettings) ==> ReloadConsistent()
    {
      settings := newSettings;
      storedSettings := Some(Serialized(newSettings));
      if Complete(newSettings) {
        ReloadAfterSave(newSettings);
      }
    }

    /** `updateAxisSettings(chartKey, updates)`: the new table is both the
        state and the stored blob; the display settings are untouched. */
    method UpdateAxisSettings(chartKey: string, updates: AxisBounds)
      modifies this
      ensures axisSettings == UpdatedAxisTable(old(axisSettings), chartKey, updates)
      ensures storedAxisSettings == Some(axisSettings)
      ensures settings == old(settings) && storedSettings == old(storedSettings)
      ensures old(ReloadConsistent()) ==> ReloadConsistent()
    {
      var next := UpdatedAxisTable(axisSettings, chartKey, updates);
      storedAxisSettings := Some(next);
      axisSettings := next;
    }

    /** The `onSave` and `onClose` callbacks given to the settings editor:
        only a save changes anything. */
    method SettingsClosed(outcome: SettingsModal.Outcome)
      modifies this
      ensures outcome.Save? ==> settings == outcome.settings && storedSettings == Some(Serialized(outcome.settings))
      ensures outcome.Close? ==> settings == old(settings) && storedSettings == old(storedSettings)
      ensures axisSettings == old(axisSettings) && storedAxisSettings == old(storedAxisSettings)
      ensures old(ReloadConsistent()) && (outcome.Save? ==> Complete(outcome.settings)) ==> ReloadConsistent()
    {
      if outcome.Save? {
        SaveSettings(outcome.settings);
      }
    }
  }

  /** One editing session end to end: the editor opens on the settings in use,
      the user changes the decimal places of a metric and saves; the dashboard
      then uses, stores and would reload exactly the edited settings. */
  method EditAndSave(d: Dashboard, metric: string, value: string, parseInt: string -> Option<int>)
    requires d.ReloadConsistent()
    modifies d
    ensures d.settings == SettingsModal.WithDecimalPlaces(old(d.settings), metric, SettingsModal.ClampDecimal(parseInt(value)))
    ensures d.storedSettings == Some(Serialized(d.settings))
    ensures d.ReloadConsistent()
  {
    var editor := new SettingsModal.Editor(d.settings);
    editor.HandleDecimalChange(metric, value, parseInt);
    var outcome := editor.SaveClicked();
    d.SettingsClosed(outcome);
  }
}
