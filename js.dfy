/** JSON values as the server receives them (request bodies and remote API
    payloads), and the few pieces of JavaScript semantics the server applies
    to them: truthiness, property reads with and without optional chaining,
    the nullish-coalescing operator, and exceptions thrown by a property read
    on `null` or `undefined`. */
module Js {

  datatype Option<+T> = None | Some(value: T)

  /** A parsed JSON document. Objects are maps: the server only ever reads
      keys, never iterates them in order. Numbers are carried, never computed
      with, so `real` stands for the JavaScript number. */
  datatype Json =
    | JNull
    | JBool(b: bool)
    | JNum(n: real)
    | JStr(s: string)
    | JArr(items: seq<Json>)
    | JObj(fields: map<string, Json>)

  /** A JavaScript value that came from JSON; `None` is `undefined`. */
  type Value = Option<Json>

  /** How evaluating an expression ended: with a value, or by throwing
      (a TypeError from reading a property of `null`, or an explicit
      `throw new Error(...)`). */
  datatype Completion<+T> = Normal(value: T) | Throw {
    predicate IsFailure() {
      Throw?
    }

    function PropagateFailure<U>(): Completion<U>
      requires Throw?
    {
      Throw
    }

    function Extract(): T
      requires Normal?
    {
      value
    }
  }

  /** `undefined`, `null`, `false`, `0` and `""` are falsy; every other
      value, empty arrays and objects included, is truthy. */
  predicate Truthy(v: Value) {
    match v
    case None => false
    case Some(JNull) => false
    case Some(JBool(b)) => b
    case Some(JNum(n)) => n != 0.0
    case Some(JStr(s)) => s != ""
    case Some(JArr(_)) => true
    case Some(JObj(_)) => true
  }

  /** `null` or `undefined`: the values `?.` and `??` react to. */
  predicate Nullish(v: Value) {
    v == None || v == Some(JNull)
  }

  predicate IsDigit(c: char) {
    '0' <= c <= '9'
  }

  function DecimalValue(s: string): nat
    requires forall i :: 0 <= i < |s| ==> IsDigit(s[i])
  {
    if s == [] then 0
    else
      var d := s[|s| - 1] as int - '0' as int;
      assert '0' as int <= s[|s| - 1] as int by { assert IsDigit(s[|s| - 1]); }
      10 * DecimalValue(s[..|s| - 1]) + d
  }

  /** The array index a property key denotes: a decimal numeral without
      leading zeros, so `"0"` and `"20240101"` are indices and `"007"` is not. */
  function ArrayIndex(key: string): (r: Option<nat>)
    ensures r.Some? ==> key != [] && forall i :: 0 <= i < |key| ==> IsDigit(key[i])
  {
    if key != [] && (forall i :: 0 <= i < |key| ==> IsDigit(key[i])) && (key[0] != '0' || key == "0")
    then Some(DecimalValue(key))
    else None
  }

  /** `v[key]` for a value that is neither `null` nor `undefined`: an own key
      of an object, or the `length` or an element of an array or a string.
      Booleans and numbers have none of the keys the server reads. */
  function Member(v: Json, key: string): (r: Value)
    ensures v.JObj? ==> (r.Some? <==> key in v.fields)
    ensures v.JNull? || v.JBool? || v.JNum? ==> r == None
  {
    match v
    case JObj(fields) => if key in fields then Some(fields[key]) else None
    case JArr(items) =>
      if key == "length" then Some(JNum(|items| as real))
      else (match ArrayIndex(key)
            case Some(i) => if i < |items| then Some(items[i]) else None
            case None => None)
    case JStr(s) =>
      if key == "length" then Some(JNum(|s| as real))
      else (match ArrayIndex(key)
            case Some(i) => if i < |s| then Some(JStr([s[i]])) else None
            case None => None)
    case _ => None
  }

  /** `v?.[key]`: `undefined` when `v` is nullish, otherwise `v[key]`. */
  function OptMember(v: Value, key: string): (r: Value)
    ensures Nullish(v) ==> r == None
  {
    if Nullish(v) then None else Member(v.value, key)
  }

  /** `v[key]` without optional chaining: throws when `v` is nullish. */
  function Get(v: Value, key: string): (r: Completion<Value>)
    ensures r.Throw? <==> Nullish(v)
  {
    if Nullish(v) then Throw else Normal(Member(v.value, key))
  }

  /** `v ?? null`: never `undefined`. */
  function OrNull(v: Value): (r: Json)
    ensures r == JNull <==> Nullish(v)
    ensures !Nullish(v) ==> v == Some(r)
  {
    if Nullish(v) then JNull else v.value
  }
}
