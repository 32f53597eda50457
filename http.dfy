/**
 * The JavaScript values that cross the serverless functions' boundaries:
 * what `JSON.parse` yields, what `JSON.stringify` is handed, and the
 * `{ statusCode, body }` record each handler returns.
 */
module Http {
  import opened Wrappers

  /**
   * A JSON value. Numbers are integers (fractions are not modelled); an
   * object keeps its members in insertion order, as `JSON.stringify` emits them.
   */
  datatype Json =
    | JNull
    | JBool(b: bool)
    | JNum(n: int)
    | JStr(s: string)
    | JArr(elems: seq<Json>)
    | JObj(members: seq<(string, Json)>)

  /**
   * The value of member `key`, or None (`undefined`) when there is none. When a
   * key is repeated, the last occurrence wins, as it does for `JSON.parse`.
   */
  function Member(members: seq<(string, Json)>, key: string): (r: Option<Json>)
    ensures r.None? <==> forall i :: 0 <= i < |members| ==> members[i].0 != key
    ensures r.Some? ==> exists i :: 0 <= i < |members| && members[i] == (key, r.value)
                          && forall j :: i < j < |members| ==> members[j].0 != key
  {
    if members == [] then None
    else if members[|members| - 1].0 == key then Some(members[|members| - 1].1)
    else Member(members[..|members| - 1], key)
  }

  /** No two members share a key, as in an object literal. */
  predicate DistinctKeys(members: seq<(string, Json)>)
  {
    forall i, j :: 0 <= i < j < |members| ==> members[i].0 != members[j].0
  }

  /** In an object whose keys are distinct, looking up a member's key gives that member's value. */
  lemma MemberOfDistinct(members: seq<(string, Json)>, i: nat)
    requires DistinctKeys(members) && i < |members|
    ensures Member(members, members[i].0) == Some(members[i].1)
  {
  }

  /**
   * Property access `v.key` on a value that is not null or undefined, for
   * keys such as `priceId` that are no index, no `length` and no member
   * inherited from `Object.prototype`: an object yields its member (the last
   * one when the key repeats); arrays, strings, numbers and booleans have no
   * such property and yield `undefined`.
   */
  function Property(v: Json, key: string): (r: Option<Json>)
    ensures !v.JObj? ==> r.None?
    ensures v.JObj? ==> (r.None? <==> forall i :: 0 <= i < |v.members| ==> v.members[i].0 != key)
    ensures r.Some? ==> exists i :: 0 <= i < |v.members| && v.members[i] == (key, r.value)
                          && forall j :: i < j < |v.members| ==> v.members[j].0 != key
  {
    match v
    case JObj(members) => Member(members, key)
    case _ => None
  }

  /**
   * JavaScript truthiness of a value, `undefined` (None) included: the falsy
   * values are exactly `undefined`, `null`, `false`, `0` and `""`.
   */
  predicate Truthy(v: Option<Json>)
    ensures !Truthy(v) <==>
      v == None || v == Some(JNull) || v == Some(JBool(false)) || v == Some(JNum(0)) || v == Some(JStr(""))
  {
    match v
    case None => false
    case Some(JNull) => false
    case Some(JBool(b)) => b
    case Some(JNum(n)) => n != 0
    case Some(JStr(s)) => s != ""
    case Some(JArr(_)) => true
    case Some(JObj(_)) => true
  }

  /** A response body: literal text, or the value passed to `JSON.stringify`. */
  datatype Body = Text(text: string) | JsonBody(value: Json)

  /** What a Netlify function handler returns. */
  datatype Response = Response(statusCode: int, body: Body)

  /**
   * The message V8 puts in the TypeError thrown when a property is read
   * from `null`.
   */
  function NullReadMessage(property: string): string
  {
    "Cannot read properties of null (reading '" + property + "')"
  }

  /**
   * The message V8 puts in the TypeError thrown when a property is read
   * from `undefined`.
   */
  function UndefinedReadMessage(property: string): string
  {
    "Cannot read properties of undefined (reading '" + property + "')"
  }
}
