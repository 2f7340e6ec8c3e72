/** The few JavaScript value semantics the signal engine relies on: reading an
    array slot that may hold `null` or lie outside the array (`undefined`), and
    the relational operators `<`, `<=`, `>`, `>=` applied to such values. */
module JsValues {
  import opened Wrappers

  /** What an expression like `ma5[ma5.length - 2]` can evaluate to. */
  datatype JsValue = Num(x: real) | Null | Undefined

  /** ToNumber as used by the relational operators: `null` becomes 0 and
      `undefined` becomes NaN, which is modelled as `None`. */
  function ToNumber(v: JsValue): (r: Option<real>)
    ensures r.None? <==> v.Undefined?
    ensures v.Null? ==> r == Some(0.0)
    ensures v.Num? ==> r == Some(v.x)
  {
    match v
    case Num(x) => Some(x)
    case Null => Some(0.0)
    case Undefined => None
  }

  /** `a < b`: false as soon as either side is NaN. */
  predicate JsLt(a: JsValue, b: JsValue)
  {
    var x, y := ToNumber(a), ToNumber(b);
    x.Some? && y.Some? && x.value < y.value
  }

  /** `a <= b`: false as soon as either side is NaN (not the negation of `b < a`). */
  predicate JsLe(a: JsValue, b: JsValue)
  {
    var x, y := ToNumber(a), ToNumber(b);
    x.Some? && y.Some? && x.value <= y.value
  }

  predicate JsGt(a: JsValue, b: JsValue) { JsLt(b, a) }

  predicate JsGe(a: JsValue, b: JsValue) { JsLe(b, a) }

  /** Reading slot `i` of an array whose slots hold a number or `null`. */
  function SlotAt(s: seq<Option<real>>, i: int): (r: JsValue)
    ensures r.Undefined? <==> !(0 <= i < |s|)
    ensures r.Null? <==> 0 <= i < |s| && s[i].None?
    ensures r.Num? ==> 0 <= i < |s| && s[i] == Some(r.x)
  {
    if 0 <= i < |s| then
      match s[i]
      case Some(x) => Num(x)
      case None => Null
    else Undefined
  }

  /** Reading slot `i` of an array of numbers. */
  function NumberAt(s: seq<real>, i: int): (r: JsValue)
    ensures r.Undefined? <==> !(0 <= i < |s|)
    ensures r.Num? ==> 0 <= i < |s| && r.x == s[i]
    ensures !r.Null?
  {
    if 0 <= i < |s| then Num(s[i]) else Undefined
  }

  /** `a > b` and `a < b` never hold together, whatever the operands are. */
  lemma GtLtExclusive(a: JsValue, b: JsValue)
    ensures !(JsGt(a, b) && JsLt(a, b))
  {
  }

  /** Every comparison with `undefined` is false, on either side. */
  lemma UndefinedComparesFalse(a: JsValue)
    ensures !JsLt(a, Undefined) && !JsLt(Undefined, a)
    ensures !JsLe(a, Undefined) && !JsLe(Undefined, a)
  {
  }

  /** `null` compares as the number 0. */
  lemma NullComparesAsZero(a: JsValue)
    ensures JsLe(a, Null) <==> JsLe(a, Num(0.0))
    ensures JsLe(Null, a) <==> JsLe(Num(0.0), a)
    ensures JsLt(a, Null) <==> JsLt(a, Num(0.0))
    ensures JsLt(Null, a) <==> JsLt(Num(0.0), a)
  {
  }
}
