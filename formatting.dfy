/** Formatting and parsing helpers of the charts and the header
    (sensor-dashboard/src/utils/formatting.js). The clock, the locale-dependent
    formatters and the string-to-number parsers are parameters. */
module Formatting {
  import opened Values

  // ---------------------------------------------------------------------------
  // "Last update" text

  function DigitChar(d: nat): (c: char)
    requires d < 10
    ensures '0' <= c <= '9' && (c as int) - ('0' as int) == d
  {
    (('0' as int) + d) as char
  }

  predicate AllDigits(s: string) {
    forall i :: 0 <= i < |s| ==> '0' <= s[i] <= '9'
  }

  /** The value of a string of decimal digits. */
  function DigitsValue(s: string): nat
    requires AllDigits(s)
  {
    if s == [] then 0
    else DigitsValue(s[..|s| - 1]) * 10 + ((s[|s| - 1] as int) - ('0' as int))
  }

  /** How a template literal renders a non-negative integer: its decimal
      digits, with no leading zero. */
  function DecimalString(n: nat): (s: string)
    ensures |s| > 0 && AllDigits(s)
    ensures s[0] == '0' ==> n == 0
    decreases n
  {
    if n < 10 then [DigitChar(n)] else DecimalString(n / 10) + [DigitChar(n % 10)]
  }

  /** Reading the digits back gives the number rendered. */
  lemma {:induction false} DecimalStringValue(n: nat)
    ensures DigitsValue(DecimalString(n)) == n
    decreases n
  {
    var s := DecimalString(n);
    if n >= 10 {
      DecimalStringValue(n / 10);
      assert s[..|s| - 1] == DecimalString(n / 10);
    }
  }

  /** `formatLastUpdate(date)` read at the instant `now` (both in epoch
      milliseconds); `localeTime` stands for `toLocaleTimeString`. The branches
      are decided on whole elapsed seconds. */
  function FormatLastUpdate(date: Option<int>, now: int, localeTime: int -> string): (r: string)
    ensures date.None? ==> r == "Never"
    ensures date.Some? && now - date.value < 5000 ==> r == "Just now"
    ensures date.Some? && 5000 <= now - date.value < 3600000 ==>
              r == DecimalString((now - date.value) / 60000) + "m ago"
    ensures date.Some? && 3600000 <= now - date.value ==> r == localeTime(date.value)
  {
    match date
    case None => "Never"
    case Some(d) =>
      // Dafny's division by a positive divisor rounds down, as Math.floor does
      var seconds := (now - d) / 1000;
      if seconds < 5 then "Just now"
      else if seconds < 3600 then DecimalString(seconds / 60) + "m ago"
      else localeTime(d)
  }

  /** Anything from 5 to 59 whole seconds reads "0m ago", and a date in the
      future reads "Just now". */
  lemma LastUpdateEdges(date: int, localeTime: int -> string)
    ensures FormatLastUpdate(Some(date), date + 5000, localeTime) == "0m ago"
    ensures FormatLastUpdate(Some(date), date + 59999, localeTime) == "0m ago"
    ensures FormatLastUpdate(Some(date), date + 60000, localeTime) == "1m ago"
    ensures FormatLastUpdate(Some(date), date - 1, localeTime) == "Just now"
  {
  }

  // ---------------------------------------------------------------------------
  // Axis ticks and override inputs

  /** `timeFormatter(value)`; `localeString` stands for the `en-AU` date-time
      formatting of a finite timestamp. */
  function TimeFormatter(value: Num, localeString: real -> string): (r: string)
    ensures value.NonFinite? ==> r == ""
    ensures value.Finite? ==> r == localeString(value.value)
  {
    match value
    case NonFinite => ""
    case Finite(ms) => localeString(ms)
  }

  /** `parseDateInput(value)` for a string field (None when the field is
      absent); `dateMs(s)` stands for `new Date(s).getTime()`. */
  function ParseDateInput(value: Option<string>, dateMs: string -> Num): (r: Option<real>)
    ensures value.None? || value == Some("") ==> r.None?
    ensures r.Some? <==> value.Some? && value.value != "" && dateMs(value.value).Finite?
    ensures r.Some? ==> dateMs(value.value) == Finite(r.value)
  {
    match value
    case None => None
    case Some(s) =>
      if s == "" then None
      else match dateMs(s)
        case Finite(ms) => Some(ms)
        case NonFinite => None
  }

  /** `parseNumberInput(value)` for a string field (None when the field is
      absent or null); `toNumber(s)` stands for `Number(s)`. The empty string is
      absent even though `Number('')` is 0. */
  function ParseNumberInput(value: Option<string>, toNumber: string -> Num): (r: Option<real>)
    ensures value.None? || value == Some("") ==> r.None?
    ensures r.Some? <==> value.Some? && value.value != "" && toNumber(value.value).Finite?
    ensures r.Some? ==> toNumber(value.value) == Finite(r.value)
  {
    match value
    case None => None
    case Some(s) =>
      if s == "" then None
      else match toNumber(s)
        case Finite(x) => Some(x)
        case NonFinite => None
  }

  // ---------------------------------------------------------------------------
  // Whole-number axis domains

  /** A bound of a chart axis: a number, or the charting library's 'auto'. */
  datatype Bound = At(x: real) | Auto

  /** An axis domain `[lo, hi]`. */
  datatype Domain = Domain(lo: Bound, hi: Bound)

  predicate IsWhole(x: real) {
    x == x.Floor as real
  }

  /** `Math.floor` */
  function Floor(x: real): (r: int)
    ensures r as real <= x < r as real + 1.0
  {
    x.Floor
  }

  /** `Math.ceil` */
  function Ceil(x: real): (r: int)
    ensures r as real - 1.0 < x <= r as real
  {
    -((-x).Floor)
  }

  /** `Math.round`: the integer nearest to x, halves rounded toward +infinity. */
  function Round(x: real): (r: int)
    ensures x - 0.5 < r as real <= x + 0.5
  {
    (x + 0.5).Floor
  }

  /** `roundDomainToWhole(domain)` */
  function RoundDomainToWhole(d: Domain): (r: Domain)
    ensures !(d.lo.At? && d.hi.At?) ==> r == d
    ensures d.lo.At? && d.hi.At? ==> r.lo.At? && r.hi.At? && IsWhole(r.lo.x) && IsWhole(r.hi.x)
    ensures d.lo.At? && d.hi.At? && d.lo.x == d.hi.x ==>
              r.lo.x + 1.0 == Round(d.lo.x) as real && r.hi.x - r.lo.x == 2.0 && r.lo.x < d.lo.x < r.hi.x
    ensures d.lo.At? && d.hi.At? && d.lo.x != d.hi.x ==>
              r.lo.x <= d.lo.x < r.lo.x + 1.0 && r.hi.x - 1.0 < d.hi.x <= r.hi.x
  {
    match d
    case Domain(At(lo), At(hi)) =>
      if lo == hi then
        var v := Round(lo);
        Domain(At((v - 1) as real), At((v + 1) as real))
      else
        Domain(At(Floor(lo) as real), At(Ceil(hi) as real))
    case _ => d
  }

  /** An already whole, non-degenerate domain is left as it is. */
  lemma WholeDomainIsFixed(lo: int, hi: int)
    requires lo != hi
    ensures RoundDomainToWhole(Domain(At(lo as real), At(hi as real))) == Domain(At(lo as real), At(hi as real))
  {
    assert Floor(lo as real) == lo;
    assert Ceil(hi as real) == hi;
  }

  /** Neither bound above the other, as in every domain built from data. */
  predicate Ordered(d: Domain) {
    d.lo.At? && d.hi.At? ==> d.lo.x <= d.hi.x
  }

  /** Rounding an ordered domain twice is rounding it once. (A reversed domain
      such as [3, 2.5] is not a fixed point: it rounds to [3, 3] and then to [2, 4].) */
  lemma RoundDomainIdempotent(d: Domain)
    requires Ordered(d)
    ensures RoundDomainToWhole(RoundDomainToWhole(d)) == RoundDomainToWhole(d)
  {
    if d.lo.At? && d.hi.At? {
      var r := RoundDomainToWhole(d);
      var lo, hi := r.lo.x.Floor, r.hi.x.Floor;
      assert r == Domain(At(lo as real), At(hi as real));
      assert lo < hi;
      WholeDomainIsFixed(lo, hi);
    }
  }

  /** Flat data becomes a width-2 interval around the rounded value (a half
      rounds up, also below zero); other data becomes floor and ceiling. */
  lemma RoundDomainExamples()
    ensures RoundDomainToWhole(Domain(At(2.1), At(2.1))) == Domain(At(1.0), At(3.0))
    ensures RoundDomainToWhole(Domain(At(2.5), At(2.5))) == Domain(At(2.0), At(4.0))
    ensures RoundDomainToWhole(Domain(At(-2.5), At(-2.5))) == Domain(At(-3.0), At(-1.0))
    ensures RoundDomainToWhole(Domain(At(1.2), At(4.8))) == Domain(At(1.0), At(5.0))
    ensures RoundDomainToWhole(Domain(Auto, Auto)) == Domain(Auto, Auto)
  {
    assert Round(2.1) == 2;
    assert Round(2.5) == 3;
    assert Round(-2.5) == -2;
    assert Floor(1.2) == 1;
    assert Ceil(4.8) == 5;
  }
}
