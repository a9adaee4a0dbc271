/** Parsed JSON values, as Python's `json` module returns them when every object
    is read into an `OrderedDict` (so an object keeps its key order). */
module Json {
  import opened Wrappers

  datatype Json =
    | Null
    | Bool(b: bool)
    | Int(i: int)
    | Str(s: string)
    | Arr(items: seq<Json>)
    | Obj(fields: seq<(string, Json)>)   // entries in insertion order

  /** Python truthiness: `None`, `False`, `0`, `""`, `[]` and `{}` are falsy. */
  predicate Truthy(v: Json) {
    match v
    case Null => false
    case Bool(b) => b
    case Int(i) => i != 0
    case Str(s) => s != []
    case Arr(items) => items != []
    case Obj(fields) => fields != []
  }

  /** The keys of an object, in insertion order. */
  function Keys(fields: seq<(string, Json)>): (r: seq<string>)
    ensures |r| == |fields|
    ensures forall k :: 0 <= k < |fields| ==> r[k] == fields[k].0
  {
    seq(|fields|, k requires 0 <= k < |fields| => fields[k].0)
  }

  /** `dict.values()`: the values of an object, in insertion order. */
  function Values(fields: seq<(string, Json)>): (r: seq<Json>)
    ensures |r| == |fields|
    ensures forall k :: 0 <= k < |fields| ==> r[k] == fields[k].1
  {
    seq(|fields|, k requires 0 <= k < |fields| => fields[k].1)
  }

  /** An object read into a dictionary has each key at most once. */
  predicate DistinctKeys(fields: seq<(string, Json)>) {
    forall j, k :: 0 <= j < k < |fields| ==> fields[j].0 != fields[k].0
  }

  /** `d[key]` on a dictionary: the value stored under `key`, if any (see `LookupFinds`). */
  function Lookup(fields: seq<(string, Json)>, key: string): Option<Json> {
    if fields == [] then None
    else if fields[0].0 == key then Some(fields[0].1)
    else Lookup(fields[1..], key)
  }

  /** A lookup finds something exactly when the key is present, and what it finds is
      stored under that key. */
  lemma {:induction false} LookupFinds(fields: seq<(string, Json)>, key: string)
    ensures Lookup(fields, key).None? <==> key !in Keys(fields)
    ensures Lookup(fields, key).Some? ==>
      exists k :: 0 <= k < |fields| && fields[k] == (key, Lookup(fields, key).value)
  {
    if fields != [] {
      assert Keys(fields) == [fields[0].0] + Keys(fields[1..]);
      if fields[0].0 != key {
        LookupFinds(fields[1..], key);
        if Lookup(fields, key).Some? {
          var k :| 0 <= k < |fields[1..]| && fields[1..][k] == (key, Lookup(fields, key).value);
          assert fields[k + 1] == (key, Lookup(fields, key).value);
        }
      }
    }
  }

  /** In a dictionary, the entry at position `k` is what a lookup of its key finds. */
  lemma {:induction false} LookupAt(fields: seq<(string, Json)>, k: nat)
    requires DistinctKeys(fields)
    requires k < |fields|
    ensures Lookup(fields, fields[k].0) == Some(fields[k].1)
  {
    if k > 0 {
      assert fields[0].0 != fields[k].0;
      assert DistinctKeys(fields[1..]);
      LookupAt(fields[1..], k - 1);
    }
  }
}
