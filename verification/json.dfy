/** Parsed JSON values as JavaScript sees them after `JSON.parse`, with the
    two JavaScript operations the validator applies to them: `typeof` and
    the `in` operator / property read. */
module Json {
  import opened Outcomes

  /** A value produced by `JSON.parse`. Numbers are kept as reals (the
      service only ever asks for their type); an object is a map from key
      to value, since `JSON.parse` keeps the last of repeated keys. */
  datatype Json =
    | JNull
    | JBool(b: bool)
    | JNumber(n: real)
    | JString(s: string)
    | JArray(items: seq<Json>)
    | JObject(members: map<string, Json>)

  /** The empty object `{}`. */
  const EmptyObject: Json := JObject(map[])

  /** JavaScript `typeof`: `null` and arrays are both "object". */
  function TypeOf(v: Json): (t: string)
    ensures t == "object" <==> (v.JNull? || v.JArray? || v.JObject?)
    ensures t == "string" <==> v.JString?
  {
    match v
    case JNull => "object"
    case JBool(_) => "boolean"
    case JNumber(_) => "number"
    case JString(_) => "string"
    case JArray(_) => "object"
    case JObject(_) => "object"
  }

  predicate IsDigit(c: char) {
    '0' <= c <= '9'
  }

  /** A canonical array index key: decimal digits with no leading zero. */
  predicate IsIndexKey(k: string) {
    && |k| > 0
    && (forall i :: 0 <= i < |k| ==> IsDigit(k[i]))
    && (k[0] == '0' ==> |k| == 1)
  }

  /** The number a string of decimal digits denotes. */
  function DigitsValue(k: string): nat
    requires forall i :: 0 <= i < |k| ==> IsDigit(k[i])
  {
    if |k| == 0 then 0
    else
      assert IsDigit(k[|k| - 1]);
      10 * DigitsValue(k[..|k| - 1]) + (k[|k| - 1] as int - '0' as int)
  }

  /** The own property `k` of an object-typed, non-null value, if present.
      An array's own properties are `length` and its index keys. */
  function OwnProperty(v: Json, k: string): (r: Option<Json>)
    requires v.JObject? || v.JArray?
    ensures v.JObject? ==> (r.Some? <==> k in v.members)
    ensures v.JObject? && r.Some? ==> r.value == v.members[k]
    ensures v.JArray? && r.Some? ==> k == "length" || IsIndexKey(k)
  {
    match v
    case JObject(m) => if k in m then Some(m[k]) else None
    case JArray(items) =>
      if k == "length" then Some(JNumber(|items| as real))
      else if IsIndexKey(k) && DigitsValue(k) < |items| then Some(items[DigitsValue(k)])
      else None
  }
}
