/** The JavaScript values the dashboard's logic handles, in exact arithmetic. */
module Values {

  /** `null` or `undefined` (None), or a present value (Some). */
  datatype Option<+T> = None | Some(value: T) {

    /** `x ?? default` */
    function GetOr(default: T): T {
      match this
      case Some(v) => v
      case None => default
    }
  }

  /** A JavaScript number. `Number.isFinite` accepts exactly the `Finite` ones;
      NaN, +Infinity and -Infinity are all `NonFinite`, since no branch of the
      dashboard tells them apart. Finite arithmetic is exact (no IEEE rounding). */
  datatype Num = Finite(value: real) | NonFinite

  /** `a * b` for a finite `b`: a non-finite factor gives a non-finite product. */
  function Times(a: Num, b: real): (r: Num)
    ensures r.Finite? <==> a.Finite?
    ensures a.Finite? ==> r.value == a.value * b
  {
    match a
    case Finite(x) => Finite(x * b)
    case NonFinite => NonFinite
  }

  /** `a + b` for a finite `b`. */
  function Plus(a: Num, b: real): (r: Num)
    ensures r.Finite? <==> a.Finite?
    ensures a.Finite? ==> r.value == a.value + b
  {
    match a
    case Finite(x) => Finite(x + b)
    case NonFinite => NonFinite
  }

  /** The number a nullable value contributes to a `Number.isFinite` filter:
      `null` and `undefined` are not finite. */
  function AsNum(v: Option<Num>): (r: Num)
    ensures r.Finite? <==> v.Some? && v.value.Finite?
    ensures v.Some? ==> r == v.value
  {
    match v
    case Some(n) => n
    case None => NonFinite
  }
}
