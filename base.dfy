/** Values shared by the server routes and the client helpers: an optional value
    and the JSON values that request bodies and error payloads carry. */
module Base {

  /** A value that may be absent (JavaScript's `undefined` or a missing row). */
  datatype Option<+T> = None | Some(value: T) {
    predicate IsFailure() { None? }

    function PropagateFailure<U>(): Option<U>
      requires None?
    {
      None
    }

    function Extract(): T
      requires Some?
    {
      value
    }
  }

  /** The row stored under `key`, if any (a storage `getX(id)` call). */
  function Lookup<K, V>(m: map<K, V>, key: K): (r: Option<V>)
    ensures r.Some? <==> key in m
    ensures r.Some? ==> r.value == m[key]
  {
    if key in m then Some(m[key]) else None
  }

  /** A JSON value as it arrives in a request body. Numbers are integers (money is
      counted in minor units). `JObject` stands for objects and arrays alike, whose
      contents are not modelled, so an array is rendered as an object would be. */
  datatype Json = JNull | JBool(b: bool) | JNum(n: int) | JStr(s: string) | JObject

  /** JavaScript truthiness of a JSON value; `None` is `undefined`. */
  predicate Truthy(v: Option<Json>)
  {
    match v
    case None => false
    case Some(JNull) => false
    case Some(JBool(b)) => b
    case Some(JNum(n)) => n != 0
    case Some(JStr(s)) => s != ""
    case Some(JObject) => true
  }

  /** An integer id as JavaScript truthiness sees it: absent and 0 are falsy. */
  predicate TruthyId(id: Option<int>)
  {
    id.Some? && id.value != 0
  }
}
