/**
 * `translateValue`: turns an arbitrary value into something printable in a
 * message, by case analysis on `typeof`.
 */
module Translate {
  import opened Js

  /** A JavaScript value, by the kinds `typeof` tells apart (numbers are integers here). */
  datatype JsValue =
    | Undefined
    | Null
    | Boolean(b: bool)
    | Number(n: int)
    | BigInt(i: int)
    | Str(s: string)
    | Symbol(sid: nat)
    | Function(fid: nat)
    | Object(oid: nat)

  /**
   * What the host answers about the object with a given identity:
   * whether it has an own `toString` property, what calling its `toString`
   * (own or inherited) returns, and what `JSON.stringify` returns (`None` when it throws).
   */
  datatype ObjectBehaviour = ObjectBehaviour(
    hasOwnToString: nat -> bool,
    toStringOf: nat -> JsValue,
    stringify: nat -> Option<string>)

  /** The `typeof` operator. */
  function TypeOf(v: JsValue): (t: string)
    ensures t == "function" <==> v.Function?
    ensures t == "object" <==> v.Object? || v.Null?
  {
    match v
    case Undefined => "undefined"
    case Null => "object"
    case Boolean(_) => "boolean"
    case Number(_) => "number"
    case BigInt(_) => "bigint"
    case Str(_) => "string"
    case Symbol(_) => "symbol"
    case Function(_) => "function"
    case Object(_) => "object"
  }

  /** A value `translateValue` hands back as it is. */
  predicate IsPrimitive(v: JsValue) {
    !v.Function? && !v.Object? && !v.Null?
  }

  function TranslateValue(h: ObjectBehaviour, value: JsValue): (r: Result<JsValue>)
    // `typeof null` is 'object', and `Object.hasOwn(null, ...)` throws: the one input that fails
    ensures r.Throws? <==> value.Null?
    ensures value.Function? ==> r == Ok(Str("<function>"))
    ensures value.Object? && h.hasOwnToString(value.oid) ==> r == Ok(h.toStringOf(value.oid))
    ensures value.Object? && !h.hasOwnToString(value.oid) && h.stringify(value.oid).Some? ==>
              r == Ok(Str(h.stringify(value.oid).value))
    ensures value.Object? && !h.hasOwnToString(value.oid) && h.stringify(value.oid).None? ==>
              r == Ok(h.toStringOf(value.oid))
    ensures IsPrimitive(value) ==> r == Ok(value)
  {
    var typeOfValue := TypeOf(value);
    if typeOfValue == "function" then
      Ok(Str("<function>"))
    else if typeOfValue == "object" then
      match value
      case Object(o) =>
        if h.hasOwnToString(o) then Ok(h.toStringOf(o))
        else if h.stringify(o).Some? then Ok(Str(h.stringify(o).value))
        else Ok(h.toStringOf(o))
      case _ => Throws(TypeError)
    else
      Ok(value)
  }

  /**
   * Translating what `translateValue` produced changes nothing more, unless
   * a user `toString` returned a function or an object.
   */
  lemma TranslateValueIdempotent(h: ObjectBehaviour, value: JsValue)
    requires TranslateValue(h, value).Ok?
    requires IsPrimitive(TranslateValue(h, value).value)
    ensures TranslateValue(h, TranslateValue(h, value).value) == TranslateValue(h, value)
  {
  }

  /**
   * A function, or an object whose `toString` yields a string, always comes
   * back as a string; JSON serialisation is tried only without an own `toString`.
   */
  lemma CompositesBecomeStrings(h: ObjectBehaviour, value: JsValue)
    requires value.Function? || value.Object?
    requires value.Object? ==> h.toStringOf(value.oid).Str?
    ensures TranslateValue(h, value).Ok? && TranslateValue(h, value).value.Str?
  {
  }

  /** The result is not always a string: a number comes back as the number. */
  lemma PrimitivesAreNotStringified(h: ObjectBehaviour)
    ensures TranslateValue(h, Number(3)) == Ok(Number(3))
    ensures TranslateValue(h, Undefined) == Ok(Undefined)
  {
  }
}
