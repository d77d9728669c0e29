/**
 * JSON values as JavaScript sees them after `JSON.parse` or `req.json()`, with the two
 * coercions the routes apply to them: truthiness (`!x`) and `Number(x)`.
 */
module Json {
  import opened Wrappers
  import opened JsNumbers

  datatype Json =
    | JNull
    | JBool(b: bool)
    | JNumber(n: real)
    | JString(s: string)
    | JArray(items: seq<Json>)
    | JObject(fields: map<string, Json>)

  /** A parsed JSON object: its keys and their values. */
  type Object = map<string, Json>

  /**
   * `o.key` for a key that `Object.prototype` does not define, such as the four the routes read
   * (`problem_text`, `final_answer`, `session_id`, `user_answer`): the value stored under `key`, or
   * `None` (`undefined`) when the object lacks it. Inherited keys such as `toString` are not modelled.
   */
  function Get(o: Object, key: string): (v: Option<Json>)
    ensures v.Some? <==> key in o
    ensures v.Some? ==> v.value == o[key]
  {
    if key in o then Some(o[key]) else None
  }

  /**
   * `value.key` on any JSON value, for a key that neither `Object.prototype` nor the primitive and
   * array prototypes define (as the four the routes read): an object's own key, and `undefined` on
   * every other value. Keys such as `length` of a string or array are not modelled.
   */
  function Property(value: Json, key: string): (v: Option<Json>)
    ensures value.JObject? ==> v == Get(value.fields, key)
    ensures !value.JObject? ==> v.None?
  {
    if value.JObject? then Get(value.fields, key) else None
  }

  /**
   * Whether `!x` is false. `undefined`, `null`, `false`, `0` and `""` are falsy; every other
   * JSON value, including `[]`, `{}`, `"0"` and `" "`, is truthy.
   */
  predicate Truthy(v: Option<Json>)
    ensures Truthy(v) <==> v.Some? && v.value != JNull && v.value != JBool(false)
                           && v.value != JNumber(0.0) && v.value != JString("")
  {
    match v
    case None => false
    case Some(JNull) => false
    case Some(JBool(b)) => b
    case Some(JNumber(n)) => n != 0.0
    case Some(JString(s)) => s != ""
    case Some(JArray(_)) => true
    case Some(JObject(_)) => true
  }

  /** The message of the `TypeError` raised when a value has no primitive form. */
  const NoPrimitiveError: string := "Cannot convert object to primitive value"

  /**
   * Whether converting `v` to a primitive succeeds. A parsed object's `valueOf` is inherited and
   * returns the object itself, so the conversion rests on `toString`; an own `toString` key
   * (never callable in parsed JSON) hides `Object.prototype.toString`, and the conversion throws.
   * An array converts through `join`, which converts every element, so it throws when any
   * element, at any depth, does.
   */
  predicate HasPrimitive(v: Json)
  {
    match v
    case JObject(fields) => "toString" !in fields
    case JArray(items) => forall i :: 0 <= i < |items| ==> HasPrimitive(items[i])
    case _ => true
  }

  /**
   * `Number(x)`, or the `TypeError` it throws. `undefined` is NaN and an object is NaN (its string
   * form is `"[object Object]"`) unless it has no primitive form. An array becomes the number of
   * its string form: `[]` is 0, a one-element array the number of that element's string form, and
   * any longer array (whose string form has a comma) NaN.
   */
  function ToNumber(v: Option<Json>): (r: Result<Num, string>)
    ensures r.Failure? <==> v.Some? && !HasPrimitive(v.value)
    ensures r.Failure? ==> r.error == NoPrimitiveError
    ensures v.None? ==> r == Success(NaN)
    ensures v.Some? && v.value.JObject? && r.Success? ==> r.value == NaN
    ensures v.Some? && v.value.JArray? && |v.value.items| > 1 && r.Success? ==> r.value == NaN
  {
    match v
    case None => Success(NaN)
    case Some(JNull) => Success(Finite(0.0))
    case Some(JBool(b)) => Success(Finite(if b then 1.0 else 0.0))
    case Some(JNumber(n)) => Success(Finite(n))
    case Some(JString(s)) => Success(StringToNumber(s))
    case Some(JArray(items)) => ArrayToNumber(items)
    case Some(JObject(fields)) => if "toString" in fields then Failure(NoPrimitiveError) else Success(NaN)
  }

  /** `Number(a)` for an array `a`: the number of `a.join(",")`, or the error an element raises. */
  function ArrayToNumber(items: seq<Json>): (r: Result<Num, string>)
    ensures r.Failure? <==> !HasPrimitive(JArray(items))
    ensures r.Failure? ==> r.error == NoPrimitiveError
  {
    if !HasPrimitive(JArray(items)) then Failure(NoPrimitiveError)
    else if items == [] then Success(Finite(0.0))
    else if |items| > 1 then Success(NaN)
    else match items[0]
      case JNull => Success(Finite(0.0))
      case JBool(_) => Success(NaN)
      case JNumber(n) => Success(Finite(n))
      case JString(s) => Success(StringToNumber(s))
      case JArray(inner) => ArrayToNumber(inner)
      case JObject(_) => Success(NaN)
  }

  /**
   * A one-element array converts like its only element, except a boolean: `Number([true])` is
   * `Number("true")`, which is NaN, while `Number(true)` is 1.
   */
  lemma SingletonConvertsLikeElement(x: Json)
    ensures !x.JBool? ==> ToNumber(Some(JArray([x]))) == ToNumber(Some(x))
    ensures x.JBool? ==> ToNumber(Some(JArray([x]))) == Success(NaN)
  {
    assert HasPrimitive(JArray([x])) <==> HasPrimitive(x) by {
      assert [x][0] == x;
    }
  }
}
