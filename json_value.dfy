/** The value `JSON.parse` hands back, and the two JavaScript operations the
    credential checks apply to it: a property read and `Object.keys`. */
module JsonValue {
  import opened Wrappers

  /** A parsed JSON value. An object lists its own properties in the order
      `Object.keys` yields them. Numbers are kept as integers: the checks
      never look at a number's value. */
  datatype Json =
    | JNull
    | JBool(b: bool)
    | JNumber(n: int)
    | JString(s: string)
    | JArray(items: seq<Json>)
    | JObject(members: seq<Member>)

  datatype Member = Member(key: string, value: Json)

  /** What reading a credential file gives: a file that cannot be read and a
      file that is not JSON both end in the same `catch`. */
  datatype ParseResult = NotParsed | Parsed(value: Json)

  /** The result of the JavaScript expression `value.key`. */
  datatype Access = Undefined | Value(v: Json) | TypeError

  /** An object as `JSON.parse` builds it: no key twice. */
  predicate DistinctKeys(j: Json)
  {
    j.JObject? ==>
      forall a, b :: 0 <= a < b < |j.members| ==> j.members[a].key != j.members[b].key
  }

  function Lookup(members: seq<Member>, key: string): (r: Option<Json>)
    ensures r.Some? <==> exists k :: 0 <= k < |members| && members[k].key == key
    ensures r.Some? ==> exists k :: 0 <= k < |members| && members[k] == Member(key, r.value)
  {
    if members == [] then None
    else if members[0].key == key then Some(members[0].value)
    else Lookup(members[1..], key)
  }

  /** `value.key` for a key that names no index and no built-in property (such
      as `accessKeyId`): only an object can have it, and `null` throws. */
  function Property(j: Json, key: string): (r: Access)
    ensures r.TypeError? <==> j.JNull?
    ensures r.Value? ==> j.JObject?
  {
    match j
    case JNull => TypeError
    case JObject(members) =>
      (match Lookup(members, key)
       case Some(v) => Value(v)
       case None => Undefined)
    case _ => Undefined
  }

  /** The values `Object.keys(value).forEach((item) => value[item])` visits:
      the properties of an object, the items of an array, the one-character
      strings of a string, nothing for a number or a boolean; `null` throws,
      represented by None. */
  function OwnValues(j: Json): (r: Option<seq<Json>>)
    ensures r.None? <==> j.JNull?
  {
    match j
    case JNull => None
    case JBool(_) => Some([])
    case JNumber(_) => Some([])
    case JString(s) => Some(seq(|s|, i requires 0 <= i < |s| => JString([s[i]])))
    case JArray(items) => Some(items)
    case JObject(members) => Some(seq(|members|, i requires 0 <= i < |members| => members[i].value))
  }

  /** The JavaScript test `v === ''`. */
  predicate IsEmptyString(v: Json)
  {
    v == JString("")
  }
}
