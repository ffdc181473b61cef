/** JSON values as the Python `json` module reads and writes them, and Python truthiness. */
module JsonValues {
  import opened Wrappers

  /**
   * A JSON value. Integers and floats are kept apart, as Python keeps them;
   * an object lists its members in insertion order, as a Python dict does.
   */
  datatype Json =
    | JNull
    | JBool(b: bool)
    | JInt(i: int)
    | JFloat(r: real)
    | JStr(s: string)
    | JArray(items: seq<Json>)
    | JObject(members: seq<(string, Json)>)

  /** The keys of an object's members, in order. */
  function KeysOf(members: seq<(string, Json)>): (keys: seq<string>)
    ensures |keys| == |members|
    ensures forall i :: 0 <= i < |members| ==> keys[i] == members[i].0
  {
    seq(|members|, i requires 0 <= i < |members| => members[i].0)
  }

  predicate DistinctKeys(keys: seq<string>)
  {
    forall i, k :: 0 <= i < k < |keys| ==> keys[i] != keys[k]
  }

  /** `obj.get(key)` on an object: the value of the first member with that key. */
  function Lookup(members: seq<(string, Json)>, key: string): Option<Json>
    decreases |members|
  {
    if members == [] then None
    else if members[0].0 == key then Some(members[0].1)
    else Lookup(members[1..], key)
  }

  /** In an object whose keys are distinct, looking up a member's key finds that member. */
  lemma {:induction false} LookupAt(members: seq<(string, Json)>, i: nat)
    requires i < |members| && DistinctKeys(KeysOf(members))
    ensures Lookup(members, members[i].0) == Some(members[i].1)
    decreases i
  {
    if i > 0 {
      assert members[0].0 != members[i].0 by {
        assert KeysOf(members)[0] != KeysOf(members)[i];
      }
      assert members[1..][i - 1] == members[i];
      assert DistinctKeys(KeysOf(members[1..])) by {
        forall p, q | 0 <= p < q < |members| - 1
          ensures KeysOf(members[1..])[p] != KeysOf(members[1..])[q]
        {
          assert KeysOf(members)[p + 1] != KeysOf(members)[q + 1];
        }
      }
      LookupAt(members[1..], i - 1);
    }
  }

  /** Python's `bool(value)` for a value read from JSON. */
  predicate Truthy(j: Json)
  {
    match j
    case JNull => false
    case JBool(b) => b
    case JInt(i) => i != 0
    case JFloat(r) => r != 0.0
    case JStr(s) => s != ""
    case JArray(items) => items != []
    case JObject(members) => members != []
  }

  /** `data.get(key)` on a parsed JSON object: the entry, or `None` when the key is missing. */
  function Get(data: map<string, Json>, key: string): Json
  {
    if key in data then data[key] else JNull
  }

  /**
   * The number Python arithmetic sees in a JSON value: integers, floats and
   * booleans (`True` is 1); `None` for the types arithmetic rejects.
   */
  function Number(j: Json): (n: Option<real>)
    ensures n.Some? <==> j.JInt? || j.JFloat? || j.JBool?
  {
    match j
    case JInt(i) => Some(i as real)
    case JFloat(r) => Some(r)
    case JBool(b) => Some(if b then 1.0 else 0.0)
    case _ => None
  }
}
