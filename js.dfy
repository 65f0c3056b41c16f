/** The few JavaScript value rules the storefront's handlers depend on, over exact reals.
    `parseInt`/`parseFloat` of bad input gives NaN; storage keeps it as `null`. */
module Js {

  /** A value that may be absent: `null`, `undefined` or a missing storage key. */
  datatype Option<+T> = None | Some(value: T) {
    /** `x || fallback` for a value that is never falsy when present. */
    function GetOr(fallback: T): T {
      match this
      case Some(v) => v
      case None => fallback
    }
  }

  /** A success value or a rejection reason. */
  datatype Result<+T, +E> = Ok(value: T) | Err(error: E)

  /** A JavaScript number field: a finite amount, NaN, or `null`. A field holds `null`
      only after a round trip through storage, because `JSON.stringify` writes NaN as
      `null` and `JSON.parse` reads it back as `null`. */
  datatype JsNum = Num(value: real) | NaN | Null

  /** `Number(x) || 0`: NaN, `null` (and 0) become 0, any other number is kept. For a
      value that is not NaN this is also the number arithmetic uses: `null` counts as 0. */
  function OrZero(x: JsNum): (r: real)
    ensures x.NaN? || x.Null? ==> r == 0.0
    ensures x.Num? ==> r == x.value
  {
    if x.Num? then x.value else 0.0
  }

  /** `a + b` on number fields: NaN is absorbing, `null` counts as 0, and the result
      is never `null`. */
  function Add(a: JsNum, b: JsNum): (r: JsNum)
    ensures r.NaN? <==> a.NaN? || b.NaN?
    ensures !r.Null?
    ensures !r.NaN? ==> r.value == OrZero(a) + OrZero(b)
  {
    if a.NaN? || b.NaN? then NaN else Num(OrZero(a) + OrZero(b))
  }

  /** `a * b` on number fields: NaN is absorbing, `null` counts as 0, and the result
      is never `null`. */
  function Mul(a: JsNum, b: JsNum): (r: JsNum)
    ensures r.NaN? <==> a.NaN? || b.NaN?
    ensures !r.Null?
    ensures !r.NaN? ==> r.value == OrZero(a) * OrZero(b)
  {
    if a.NaN? || b.NaN? then NaN else Num(OrZero(a) * OrZero(b))
  }

  /** Adding 0 to a sum changes nothing. */
  lemma AddZero(a: JsNum)
    requires !a.Null?
    ensures Add(a, Num(0.0)) == a
  {
  }

  /** `+` on number fields is associative. */
  lemma AddAssoc(a: JsNum, b: JsNum, c: JsNum)
    ensures Add(Add(a, b), c) == Add(a, Add(b, c))
  {
  }

  /** `JSON.parse(JSON.stringify(x))` for a number field: NaN comes back as `null`,
      so nothing read from storage is NaN. */
  function Stored(x: JsNum): (r: JsNum)
    ensures !r.NaN?
    ensures x.NaN? ==> r.Null?
    ensures !x.NaN? ==> r == x
  {
    if x.NaN? then Null else x
  }

  /** Storing what was read back changes nothing, and the coerced value survives. */
  lemma StoredRoundTrip(x: JsNum)
    ensures Stored(Stored(x)) == Stored(x)
    ensures OrZero(Stored(x)) == OrZero(x)
  {
  }

  /** `x > 0`: every comparison with NaN is false, and `null` compares as 0. */
  predicate IsPositive(x: JsNum) {
    x.Num? && x.value > 0.0
  }
}
