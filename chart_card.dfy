/** The data and axis-domain logic of one history chart
    (sensor-dashboard/src/components/ChartCard.jsx, lines 17-64). */
module ChartCard {
  import opened Values
  import opened Defaults
  import opened Formatting

  /** One point of the history series: the three readings (null when the server
      sent none), the server timestamp, its local rendering and its epoch
      milliseconds (non-finite when the timestamp did not parse). */
  datatype Entry = Entry(
    temperature: Option<Num>,
    humidity: Option<Num>,
    pressure: Option<Num>,
    timestamp: string,
    time: string,
    timestampMs: Num)

  /** `item[dataKey]` */
  function Field(e: Entry, key: Metric): Option<Num> {
    match key
    case Temperature => e.temperature
    case Humidity => e.humidity
    case Pressure => e.pressure
  }

  /** Two entries that agree everywhere except, perhaps, at `key`. */
  predicate SameExcept(a: Entry, b: Entry, key: Metric) {
    && (forall k :: k != key ==> Field(a, k) == Field(b, k))
    && a.timestamp == b.timestamp && a.time == b.time && a.timestampMs == b.timestampMs
  }

  /** `{ ...item, [dataKey]: v }` */
  function WithField(e: Entry, key: Metric, v: Option<Num>): (r: Entry)
    ensures Field(r, key) == v
    ensures SameExcept(r, e, key)
  {
    match key
    case Temperature => e.(temperature := v)
    case Humidity => e.(humidity := v)
    case Pressure => e.(pressure := v)
  }

  /** `displayData`: each entry with its `dataKey` reading converted, in the
      same order; the data itself when there is no converter. */
  function DisplayData(data: seq<Entry>, key: Metric, convertValue: Option<Option<Num> -> Option<Num>>): (r: seq<Entry>)
    ensures |r| == |data|
    ensures convertValue.None? ==> r == data
    ensures convertValue.Some? ==>
              forall i :: 0 <= i < |data| ==>
                Field(r[i], key) == convertValue.value(Field(data[i], key)) && SameExcept(r[i], data[i], key)
  {
    match convertValue
    case None => data
    case Some(convert) => seq(|data|, i requires 0 <= i < |data| => WithField(data[i], key, convert(Field(data[i], key))))
  }

  /** `axisSettings || { xMin: '', xMax: '', yMin: '', yMax: '' }` */
  function SafeAxisSettings(axisSettings: Option<AxisBounds>): (a: AxisBounds)
    ensures axisSettings.Some? ==> a == axisSettings.value
    ensures axisSettings.None? ==> forall f :: BoundField(a, f) == Some("")
  {
    axisSettings.GetOr(AllAuto)
  }

  // ---------------------------------------------------------------------------
  // Finite values, their minimum and maximum

  /** `.filter(v => Number.isFinite(v))`, keeping the numbers themselves. */
  function Finites(xs: seq<Num>): (r: seq<real>)
    ensures |r| <= |xs|
    ensures forall x :: x in r <==> Finite(x) in xs
  {
    if xs == [] then []
    else (if xs[0].Finite? then [xs[0].value] else []) + Finites(xs[1..])
  }

  /** `Math.min(...s)` of a non-empty list. */
  function MinOf(s: seq<real>): (m: real)
    requires |s| > 0
    ensures m in s
    ensures forall i :: 0 <= i < |s| ==> m <= s[i]
  {
    if |s| == 1 then s[0]
    else
      var rest := MinOf(s[1..]);
      if s[0] <= rest then s[0] else rest
  }

  /** `Math.max(...s)` of a non-empty list. */
  function MaxOf(s: seq<real>): (m: real)
    requires |s| > 0
    ensures m in s
    ensures forall i :: 0 <= i < |s| ==> s[i] <= m
  {
    if |s| == 1 then s[0]
    else
      var rest := MaxOf(s[1..]);
      if s[0] >= rest then s[0] else rest
  }

  /** The finite `timestampMs` values. */
  function Timestamps(data: seq<Entry>): (r: seq<real>)
    ensures forall t :: t in r <==> exists i :: 0 <= i < |data| && data[i].timestampMs == Finite(t)
  {
    var ts := seq(|data|, i requires 0 <= i < |data| => data[i].timestampMs);
    assert forall i :: 0 <= i < |data| ==> ts[i] == data[i].timestampMs;
    Finites(ts)
  }

  /** The finite `dataKey` readings. */
  function YValues(data: seq<Entry>, key: Metric): (r: seq<real>)
    ensures forall y :: y in r <==> exists i :: 0 <= i < |data| && Field(data[i], key) == Some(Finite(y))
  {
    var ys := seq(|data|, i requires 0 <= i < |data| => AsNum(Field(data[i], key)));
    assert forall i :: 0 <= i < |data| ==> ys[i] == AsNum(Field(data[i], key));
    Finites(ys)
  }

  /** `values.length ? [Math.min(...values), Math.max(...values)] : ['auto', 'auto']` */
  function AutoDomain(values: seq<real>): (d: Domain)
    ensures |values| == 0 <==> d == Domain(Auto, Auto)
    ensures |values| > 0 ==>
              && d.lo.At? && d.hi.At? && d.lo.x in values && d.hi.x in values
              && forall i :: 0 <= i < |values| ==> d.lo.x <= values[i] <= d.hi.x
  {
    if |values| == 0 then Domain(Auto, Auto) else Domain(At(MinOf(values)), At(MaxOf(values)))
  }

  lemma AutoDomainOrdered(values: seq<real>)
    ensures Ordered(AutoDomain(values))
  {
  }

  // ---------------------------------------------------------------------------
  // Resolving the two axes

  /** `v ?? 'auto'` */
  function OrAuto(v: Option<real>): (b: Bound)
    ensures b.At? <==> v.Some?
    ensures v.Some? ==> b.x == v.value
  {
    match v
    case Some(x) => At(x)
    case None => Auto
  }

  /** `resolvedXDomain`: all or nothing. With an override on either side, each
      side is its override or 'auto' (never the computed bound); with none, the
      raw auto domain. */
  function ResolveXDomain(auto: Domain, xMinMs: Option<real>, xMaxMs: Option<real>): (d: Domain)
    ensures xMinMs.None? && xMaxMs.None? ==> d == auto
    ensures xMinMs.Some? || xMaxMs.Some? ==>
              && (d.lo.At? <==> xMinMs.Some?) && (xMinMs.Some? ==> d.lo.x == xMinMs.value)
              && (d.hi.At? <==> xMaxMs.Some?) && (xMaxMs.Some? ==> d.hi.x == xMaxMs.value)
  {
    if xMinMs.Some? || xMaxMs.Some? then Domain(OrAuto(xMinMs), OrAuto(xMaxMs)) else auto
  }

  /** `resolvedYDomain`: each side independently, its override if there is one,
      else that side of the whole-number domain. (The `?? 'auto'` of the source
      never applies: a side of the rounded domain is never null.) */
  function ResolveYDomain(base: Domain, yMin: Option<real>, yMax: Option<real>): (d: Domain)
    ensures d.lo == (if yMin.Some? then At(yMin.value) else base.lo)
    ensures d.hi == (if yMax.Some? then At(yMax.value) else base.hi)
  {
    Domain(
      match yMin case Some(v) => At(v) case None => base.lo,
      match yMax case Some(v) => At(v) case None => base.hi)
  }

  /** The domains handed to the two axes of a chart. */
  datatype ChartDomains = ChartDomains(x: Domain, y: Domain)

  /** `resolvedXDomain` and `resolvedYDomain` of a chart of `key` over `data`,
      with the stored `axisSettings` of that chart; `dateMs` and `toNumber`
      stand for the date and number parsers behind the override inputs. */
  function Domains(
    data: seq<Entry>, key: Metric, convertValue: Option<Option<Num> -> Option<Num>>,
    axisSettings: Option<AxisBounds>, dateMs: string -> Num, toNumber: string -> Num): (r: ChartDomains)
    ensures var a, shown := SafeAxisSettings(axisSettings), DisplayData(data, key, convertValue);
            var xMinMs, xMaxMs := ParseDateInput(a.xMin, dateMs), ParseDateInput(a.xMax, dateMs);
            && (xMinMs.None? && xMaxMs.None? ==> r.x == AutoDomain(Timestamps(shown)))
            && (xMinMs.Some? || xMaxMs.Some? ==> r.x == Domain(OrAuto(xMinMs), OrAuto(xMaxMs)))
    ensures var a, shown := SafeAxisSettings(axisSettings), DisplayData(data, key, convertValue);
            var yMin, yMax := ParseNumberInput(a.yMin, toNumber), ParseNumberInput(a.yMax, toNumber);
            var rounded := RoundDomainToWhole(AutoDomain(YValues(shown, key)));
            && r.y.lo == (if yMin.Some? then At(yMin.value) else rounded.lo)
            && r.y.hi == (if yMax.Some? then At(yMax.value) else rounded.hi)
  {
    var shown := DisplayData(data, key, convertValue);
    var a := SafeAxisSettings(axisSettings);
    var xMinMs := ParseDateInput(a.xMin, dateMs);
    var xMaxMs := ParseDateInput(a.xMax, dateMs);
    var yMinValue := ParseNumberInput(a.yMin, toNumber);
    var yMaxValue := ParseNumberInput(a.yMax, toNumber);
    ChartDomains(
      ResolveXDomain(AutoDomain(Timestamps(shown)), xMinMs, xMaxMs),
      ResolveYDomain(RoundDomainToWhole(AutoDomain(YValues(shown, key))), yMinValue, yMaxValue))
  }

  // ---------------------------------------------------------------------------
  // Properties of the resolved domains

  /** An entry present and finite in the chart's series. */
  predicate HasFiniteReading(data: seq<Entry>, key: Metric, i: int) {
    0 <= i < |data| && Field(data[i], key).Some? && Field(data[i], key).value.Finite?
  }

  /** A list without a finite number filters down to nothing. */
  lemma {:induction false} NoFinitesIsEmpty(xs: seq<Num>)
    requires forall i :: 0 <= i < |xs| ==> xs[i].NonFinite?
    ensures Finites(xs) == []
  {
    if xs != [] {
      NoFinitesIsEmpty(xs[1..]);
    }
  }

  /** Absent settings and all-empty settings both mean no override at all:
      the X axis takes the raw auto domain and the Y axis its whole-number
      rounding. */
  lemma NoSettingsMeansAuto(
    data: seq<Entry>, key: Metric, convertValue: Option<Option<Num> -> Option<Num>>,
    axisSettings: Option<AxisBounds>, dateMs: string -> Num, toNumber: string -> Num)
    requires axisSettings.None? || axisSettings == Some(AllAuto)
    ensures var shown := DisplayData(data, key, convertValue);
            Domains(data, key, convertValue, axisSettings, dateMs, toNumber)
            == ChartDomains(AutoDomain(Timestamps(shown)), RoundDomainToWhole(AutoDomain(YValues(shown, key))))
  {
  }

  /** A one-sided X override gives one explicit bound and one 'auto' bound,
      whatever the data: the missing side is not filled in from the data. */
  lemma OneSidedXOverride(
    data: seq<Entry>, key: Metric, convertValue: Option<Option<Num> -> Option<Num>>,
    axisSettings: AxisBounds, dateMs: string -> Num, toNumber: string -> Num)
    requires axisSettings.xMin.Some? && axisSettings.xMin.value != "" && dateMs(axisSettings.xMin.value).Finite?
    requires axisSettings.xMax.None? || axisSettings.xMax == Some("")
    ensures Domains(data, key, convertValue, Some(axisSettings), dateMs, toNumber).x
            == Domain(At(dateMs(axisSettings.xMin.value).value), Auto)
  {
  }

  /** With no Y override, a series without a single finite reading gives
      `['auto', 'auto']` on the Y axis. */
  lemma NoFiniteReadingsMeansAutoY(
    data: seq<Entry>, key: Metric, convertValue: Option<Option<Num> -> Option<Num>>,
    axisSettings: Option<AxisBounds>, dateMs: string -> Num, toNumber: string -> Num)
    requires forall i :: 0 <= i < |data| ==> !HasFiniteReading(DisplayData(data, key, convertValue), key, i)
    requires ParseNumberInput(SafeAxisSettings(axisSettings).yMin, toNumber).None?
    requires ParseNumberInput(SafeAxisSettings(axisSettings).yMax, toNumber).None?
    ensures Domains(data, key, convertValue, axisSettings, dateMs, toNumber).y == Domain(Auto, Auto)
  {
    var shown := DisplayData(data, key, convertValue);
    var ys := seq(|shown|, i requires 0 <= i < |shown| => AsNum(Field(shown[i], key)));
    forall i | 0 <= i < |ys|
      ensures ys[i].NonFinite?
    {
      assert !HasFiniteReading(shown, key, i);
    }
    NoFinitesIsEmpty(ys);
  }

  /** With no X override, a series without a single finite timestamp gives
      `['auto', 'auto']` on the X axis. */
  lemma NoFiniteTimestampsMeansAutoX(
    data: seq<Entry>, key: Metric, convertValue: Option<Option<Num> -> Option<Num>>,
    axisSettings: Option<AxisBounds>, dateMs: string -> Num, toNumber: string -> Num)
    requires forall i :: 0 <= i < |data| ==> data[i].timestampMs.NonFinite?
    requires ParseDateInput(SafeAxisSettings(axisSettings).xMin, dateMs).None?
    requires ParseDateInput(SafeAxisSettings(axisSettings).xMax, dateMs).None?
    ensures Domains(data, key, convertValue, axisSettings, dateMs, toNumber).x == Domain(Auto, Auto)
  {
  }

  /** With no Y override the Y domain encloses every finite reading shown,
      between whole-number bounds. */
  lemma YDomainEnclosesReadings(
    data: seq<Entry>, key: Metric, convertValue: Option<Option<Num> -> Option<Num>>,
    axisSettings: Option<AxisBounds>, dateMs: string -> Num, toNumber: string -> Num, i: int)
    requires HasFiniteReading(DisplayData(data, key, convertValue), key, i)
    requires ParseNumberInput(SafeAxisSettings(axisSettings).yMin, toNumber).None?
    requires ParseNumberInput(SafeAxisSettings(axisSettings).yMax, toNumber).None?
    ensures var d := Domains(data, key, convertValue, axisSettings, dateMs, toNumber).y;
            var y := Field(DisplayData(data, key, convertValue)[i], key).value.value;
            d.lo.At? && d.hi.At? && IsWhole(d.lo.x) && IsWhole(d.hi.x) && d.lo.x <= y <= d.hi.x
  {
    var shown := DisplayData(data, key, convertValue);
    var ys := seq(|shown|, j requires 0 <= j < |shown| => AsNum(Field(shown[j], key)));
    var y := Field(shown[i], key).value.value;
    assert ys[i] == Finite(y);
    var values := YValues(shown, key);
    assert y in values;
    var k :| 0 <= k < |values| && values[k] == y;
    var auto := AutoDomain(values);
    assert auto.lo.x <= y <= auto.hi.x;
  }

  /** With no X override the X domain spans every finite timestamp. */
  lemma XDomainEnclosesTimestamps(
    data: seq<Entry>, key: Metric, convertValue: Option<Option<Num> -> Option<Num>>,
    axisSettings: Option<AxisBounds>, dateMs: string -> Num, toNumber: string -> Num, i: int)
    requires 0 <= i < |data| && data[i].timestampMs.Finite?
    requires ParseDateInput(SafeAxisSettings(axisSettings).xMin, dateMs).None?
    requires ParseDateInput(SafeAxisSettings(axisSettings).xMax, dateMs).None?
    ensures var d := Domains(data, key, convertValue, axisSettings, dateMs, toNumber).x;
            d.lo.At? && d.hi.At? && d.lo.x <= data[i].timestampMs.value <= d.hi.x
  {
    var shown := DisplayData(data, key, convertValue);
    var ts := seq(|shown|, j requires 0 <= j < |shown| => shown[j].timestampMs);
    var t := data[i].timestampMs.value;
    assert ts[i] == Finite(t);
    var values := Timestamps(shown);
    assert t in values;
    var k :| 0 <= k < |values| && values[k] == t;
  }

  // ---------------------------------------------------------------------------
  // Updates the chart emits

  /** `handleAxisChange(key, value)`: an update naming that one field. */
  function HandleAxisChange(field: AxisField, value: string): (u: AxisBounds)
    ensures BoundField(u, field) == Some(value)
    ensures forall f :: f != field ==> BoundField(u, f).None?
  {
    match field
    case XMin => AxisBounds(Some(value), None, None, None)
    case XMax => AxisBounds(None, Some(value), None, None)
    case YMin => AxisBounds(None, None, Some(value), None)
    case YMax => AxisBounds(None, None, None, Some(value))
  }

  /** `handleReset()`: an update setting all four fields to the empty string. */
  function HandleReset(): (u: AxisBounds)
    ensures forall f :: BoundField(u, f) == Some("")
  {
    AxisBounds(Some(""), Some(""), Some(""), Some(""))
  }
}
