/** The values a payload can hold: what Python's JSON decoder produces, plus a
    `datetime` object, which the date parser also accepts. Numbers, integral or
    not, are exact reals. */
module JsonValue {
  import opened Wrappers
  import Calendar

  datatype Json =
    | JNull
    | JBool(b: bool)
    | JNum(n: real)
    | JStr(s: string)
    | JArr(items: seq<Json>)
    | JObj(fields: map<string, Json>)
    | JDateTime(date: Calendar.Date)

  /** Python truthiness of a value: what `x or y` tests. */
  predicate Truthy(v: Json) {
    match v
    case JNull => false
    case JBool(b) => b
    case JNum(n) => n != 0.0
    case JStr(s) => |s| > 0
    case JArr(a) => |a| > 0
    case JObj(m) => |m| > 0
    case JDateTime(_) => true
  }

  /** The falsy values are exactly null, false, zero, and the empty string,
      list and object. */
  lemma FalsyValues(v: Json)
    ensures !Truthy(v) <==>
      (v == JNull || v == JBool(false) || v == JNum(0.0) || v == JStr("") || v == JArr([]) || v == JObj(map[]))
  {
    if v.JObj? && |v.fields| == 0 {
      assert v.fields.Keys == {};
    }
  }

  /** `dict.get(key)`: the value under `key`, or null when the key is absent. */
  function Get(m: map<string, Json>, key: string): (r: Json)
    ensures key in m ==> r == m[key]
    ensures key !in m ==> r == JNull
  {
    if key in m then m[key] else JNull
  }

  /** The ordered probe both lookups share: the position of the first key of
      `keys` that `m` holds with a value `accept` admits. Keys are tried in
      the caller's order, never in the map's. */
  function FirstAccepted(m: map<string, Json>, keys: seq<string>, accept: Json -> bool): (r: Option<nat>)
    ensures r.Some? ==> r.value < |keys| && keys[r.value] in m && accept(m[keys[r.value]])
    ensures r.Some? ==> forall j :: 0 <= j < r.value ==> !(keys[j] in m && accept(m[keys[j]]))
    ensures r.None? ==> forall j :: 0 <= j < |keys| ==> !(keys[j] in m && accept(m[keys[j]]))
  {
    if |keys| == 0 then None
    else if keys[0] in m && accept(m[keys[0]]) then Some(0)
    else match FirstAccepted(m, keys[1..], accept)
      case None => None
      case Some(i) => Some(i + 1)
  }
}
