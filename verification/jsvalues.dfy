/**
 * JSON values as the handlers see them after `JSON.parse`, together with the
 * few JavaScript coercions the route handlers rely on: truthiness, property
 * lookup and the `.length` property.
 */
module JsValues {
  import opened Wrappers

  datatype Json =
    | JNull
    | JBool(b: bool)
    | JNumber(n: real)
    | JString(s: string)
    | JArray(items: seq<Json>)
    | JObject(fields: map<string, Json>)

  /** Truthiness of a property read; `None` stands for `undefined`. */
  predicate Truthy(v: Option<Json>) {
    match v
    case None => false
    case Some(JNull) => false
    case Some(JBool(b)) => b
    case Some(JNumber(n)) => n != 0.0
    case Some(JString(s)) => |s| > 0
    case Some(JArray(_)) => true
    case Some(JObject(_)) => true
  }

  /**
   * `value.key` on a non-null value: only objects carry the keys the handlers
   * ask for; on any other value the read yields `undefined`.
   */
  function Prop(v: Json, key: string): (r: Option<Json>)
    requires !v.JNull?
    ensures r.Some? <==> v.JObject? && key in v.fields
    ensures r.Some? ==> r.value == v.fields[key]
  {
    if v.JObject? && key in v.fields then Some(v.fields[key]) else None
  }

  /** Number of UTF-16 code units of a string, which is what JavaScript's `length` counts. */
  function Utf16Length(s: string): nat
  {
    if |s| == 0 then 0
    else Utf16Length(s[..|s| - 1]) + (if s[|s| - 1] as int > 0xFFFF then 2 else 1)
  }

  lemma {:induction false} Utf16LengthBounds(s: string)
    ensures |s| <= Utf16Length(s) <= 2 * |s|
  {
    if |s| > 0 {
      Utf16LengthBounds(s[..|s| - 1]);
    }
  }

  /** On text whose characters all lie in the Basic Multilingual Plane both lengths agree. */
  lemma {:induction false} Utf16LengthOfBmp(s: string)
    requires forall i :: 0 <= i < |s| ==> s[i] as int <= 0xFFFF
    ensures Utf16Length(s) == |s|
  {
    if |s| > 0 {
      Utf16LengthOfBmp(s[..|s| - 1]);
    }
  }

  /** The `length` property of a JSON value: strings and arrays have one, everything else reads `undefined`. */
  function JsLength(v: Json): (r: Option<nat>)
    ensures r.Some? <==> v.JString? || v.JArray?
    ensures v.JArray? ==> r == Some(|v.items|)
    ensures v.JString? ==> r.Some? && |v.s| <= r.value <= 2 * |v.s|
  {
    match v
    case JString(s) => Utf16LengthBounds(s); Some(Utf16Length(s))
    case JArray(items) => Some(|items|)
    case _ => None
  }

  /** JavaScript's `len > bound` where `undefined` compares as `NaN`, i.e. false. */
  predicate LengthExceeds(v: Json, bound: int) {
    match JsLength(v)
    case Some(n) => n > bound
    case None => false
  }
}
