/** JSON values as `JSON.parse` produces them and `JSON.stringify` reads them, with integer numbers only. */
module Json {
  import opened Wrappers

  datatype Json =
    | JNull
    | JBool(b: bool)
    | JNumber(n: int)
    | JString(s: string)
    | JArray(items: seq<Json>)
    | JObject(members: seq<(string, Json)>)
  {
    /** JavaScript truthiness of the value. */
    predicate Truthy() {
      match this
      case JNull => false
      case JBool(b) => b
      case JNumber(n) => n != 0
      case JString(s) => s != ""
      case _ => true
    }

    /** `value[key]`: a member of an object, `undefined` (None) for anything else. */
    function Get(key: string): (r: Option<Json>)
      ensures r.Some? ==> JObject? && (key, r.value) in members
      ensures r.Some? ==> exists i :: 0 <= i < |members| && members[i] == (key, r.value)
                                      && forall j :: i < j < |members| ==> members[j].0 != key
      ensures JObject? && r.None? ==> forall i :: 0 <= i < |members| ==> members[i].0 != key
    {
      if JObject? then Lookup(members, key) else None
    }
  }

  /** The last member with the key: `JSON.parse` keeps the last of duplicate keys. */
  function Lookup(members: seq<(string, Json)>, key: string): (r: Option<Json>)
    ensures r.Some? ==> exists i :: 0 <= i < |members| && members[i] == (key, r.value)
                                    && forall j :: i < j < |members| ==> members[j].0 != key
    ensures r.None? ==> forall i :: 0 <= i < |members| ==> members[i].0 != key
  {
    if |members| == 0 then None
    else if members[|members| - 1].0 == key then Some(members[|members| - 1].1)
    else Lookup(members[..|members| - 1], key)
  }
}
