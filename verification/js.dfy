/**
 * JavaScript's view of a numeric field of a report: absent
 * (`undefined`), `null`, or a number, with the coercions the pages rely
 * on.  `NaN` and numeric strings are not part of this model.
 */
module Js {

  /** A numeric value as JavaScript holds it. */
  datatype JsNumber = Undefined | Null | Num(x: real)

  /** The number a relational operator compares: `null` is 0; `undefined` has none (it is `NaN`). */
  function Numeric(v: JsNumber): (r: (bool, real))
    ensures v.Undefined? <==> !r.0
    ensures v.Null? ==> r == (true, 0.0)
    ensures v.Num? ==> r == (true, v.x)
  {
    match v
    case Undefined => (false, 0.0)
    case Null => (true, 0.0)
    case Num(x) => (true, x)
  }

  /** `v > c`. */
  predicate Gt(v: JsNumber, c: real) {
    Numeric(v).0 && Numeric(v).1 > c
  }

  /** `v < c`. */
  predicate Lt(v: JsNumber, c: real) {
    Numeric(v).0 && Numeric(v).1 < c
  }

  /** A truthy number: present and not zero. */
  predicate Truthy(v: JsNumber) {
    v.Num? && v.x != 0.0
  }

  /** `v || 0`. */
  function OrZero(v: JsNumber): (r: real)
    ensures Truthy(v) ==> r == v.x
    ensures !Truthy(v) ==> r == 0.0
  {
    if Truthy(v) then v.x else 0.0
  }

  /** A value can never be both above and below the same bound. */
  lemma GtLtExclusive(v: JsNumber, lo: real, hi: real)
    requires lo <= hi
    ensures !(Lt(v, lo) && Gt(v, hi))
  {
  }
}
