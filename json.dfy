/** A generic JSON value as the category files are parsed into, and key lookup in a
    JSON object. An object is the sequence of its (key, value) pairs in the order in
    which iterating over the object's keys yields them. */
module Json {

  datatype Option<+T> = None | Some(value: T)

  /** Numbers are kept as integers: the entry projection only ever asks whether a
      value is a string, an array or an object. */
  datatype Json =
    | Null
    | Bool(b: bool)
    | Num(n: int)
    | Str(s: string)
    | Arr(elems: seq<Json>)
    | Obj(fields: seq<(string, Json)>)

  /** A parsed JSON object never holds the same key twice. */
  predicate DistinctKeys(fields: seq<(string, Json)>)
  {
    forall i, j :: 0 <= i < j < |fields| ==> fields[i].0 != fields[j].0
  }

  predicate HasKey(fields: seq<(string, Json)>, key: string)
  {
    exists i :: 0 <= i < |fields| && fields[i].0 == key
  }

  /** The value stored under `key`, as `map.get(key)` returns it. */
  function Get(fields: seq<(string, Json)>, key: string): (r: Option<Json>)
    ensures r.None? <==> !HasKey(fields, key)
    ensures r.Some? ==> exists i :: 0 <= i < |fields| && fields[i] == (key, r.value)
  {
    if |fields| == 0 then None
    else if fields[0].0 == key then Some(fields[0].1)
    else
      var r := Get(fields[1..], key);
      assert forall i :: 0 < i < |fields| ==> fields[i] == fields[1..][i - 1];
      assert HasKey(fields[1..], key) ==> HasKey(fields, key);
      r
  }

  /** In an object with distinct keys, looking up a pair's key yields that pair's value. */
  lemma {:induction false} GetAt(fields: seq<(string, Json)>, i: nat)
    requires DistinctKeys(fields)
    requires i < |fields|
    ensures Get(fields, fields[i].0) == Some(fields[i].1)
  {
  }

  /** Inserting a pair under a key the object lacks leaves every other lookup unchanged. */
  lemma {:induction false} GetInsert(fields: seq<(string, Json)>, at: nat, k: string, v: Json, key: string)
    requires at <= |fields|
    requires key != k
    ensures Get(fields[..at] + [(k, v)] + fields[at..], key) == Get(fields, key)
  {
    var g := fields[..at] + [(k, v)] + fields[at..];
    if at == 0 {
      assert g[1..] == fields;
    } else {
      assert g[1..] == fields[1..][..at - 1] + [(k, v)] + fields[1..][at - 1..];
      GetInsert(fields[1..], at - 1, k, v, key);
    }
  }
}
