/** JavaScript values as the client code sees them: optional (undefined) values,
    parsed JSON, truthiness and property reads. */
module Js {

  /** `undefined` is `None`; a present value is `Some`. */
  datatype Option<+T> = None | Some(value: T)

  /** A value produced by `JSON.parse`. Object members keep their textual order. */
  datatype Json =
    | JNull
    | JBool(b: bool)
    | JNum(n: real)
    | JStr(s: string)
    | JArr(items: seq<Json>)
    | JObj(members: seq<(string, Json)>)

  /** JavaScript truthiness. `JSON.parse` never yields NaN, so a number is falsy only when zero. */
  predicate Truthy(j: Json) {
    match j
    case JNull => false
    case JBool(b) => b
    case JNum(n) => n != 0.0
    case JStr(s) => s != ""
    case JArr(_) => true
    case JObj(_) => true
  }

  /** Truthiness of a value that may be `undefined`. */
  predicate TruthyOpt(v: Option<Json>) {
    v.Some? && Truthy(v.value)
  }

  /** Truthiness of a stored string (`localStorage.getItem` gives `null` for a missing key). */
  predicate TruthyText(v: Option<string>) {
    v.Some? && v.value != ""
  }

  /** The value of member `key`; when the text repeated a key, `JSON.parse` keeps the last one. */
  function Member(members: seq<(string, Json)>, key: string): (r: Option<Json>)
    ensures r.None? <==> forall i :: 0 <= i < |members| ==> members[i].0 != key
    ensures r.Some? ==> exists i :: 0 <= i < |members| && members[i] == (key, r.value) &&
                          forall j :: i < j < |members| ==> members[j].0 != key
  {
    if members == [] then None
    else if members[|members| - 1].0 == key then Some(members[|members| - 1].1)
    else Member(members[..|members| - 1], key)
  }

  /** The property read `j.key` on a non-null value: an own member of an object, and
      `undefined` for every other kind of value. (Reading a property of `null` throws;
      callers treat `JNull` before calling this.) */
  function Get(j: Json, key: string): Option<Json> {
    if j.JObj? then Member(j.members, key) else None
  }

  /** Every key of an object literal occurs once. */
  predicate DistinctKeys(members: seq<(string, Json)>) {
    forall i, j :: 0 <= i < j < |members| ==> members[i].0 != members[j].0
  }

  /** `String(v)` for a value whose string form is given by `show`: a string is itself. */
  function ToJsString(v: Json, show: Json -> string): string {
    if v.JStr? then v.s else show(v)
  }
}
