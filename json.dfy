/**
 * The JSON values the server hands to `jsonify`: Python dicts keep their
 * insertion order, so an object is a sequence of key/value pairs.
 */
module Json {

  import opened Optional

  datatype Value =
    | Null
    | Bool(b: bool)
    | Int(i: int)
    | Real(r: real)
    | Str(s: string)
    | Arr(items: seq<Value>)
    | Obj(fields: seq<(string, Value)>)

  function Keys(fields: seq<(string, Value)>): (ks: seq<string>)
    ensures |ks| == |fields|
    ensures forall i :: 0 <= i < |fields| ==> ks[i] == fields[i].0
  {
    seq(|fields|, i requires 0 <= i < |fields| => fields[i].0)
  }

  /** `d[key]` or `d.get(key)`: the value stored under the first occurrence of `key`. */
  function Get(fields: seq<(string, Value)>, key: string): (r: Option<Value>)
    ensures r.None? <==> key !in Keys(fields)
    ensures r.Some? ==> (key, r.value) in fields
  {
    if fields == [] then None
    else if fields[0].0 == key then Some(fields[0].1)
    else Get(fields[1..], key)
  }

  /** `d[key] = value`: overwrite an existing entry in place, otherwise append a new one. */
  function Put(fields: seq<(string, Value)>, key: string, value: Value): (r: seq<(string, Value)>)
    ensures (key, value) in r
    ensures |fields| <= |r| <= |fields| + 1
  {
    if fields == [] then [(key, value)]
    else if fields[0].0 == key then [(key, value)] + fields[1..]
    else [fields[0]] + Put(fields[1..], key, value)
  }

  /** After `d[key] = value`, `key` maps to `value` and every other key keeps its value. */
  lemma {:induction false} PutGet(fields: seq<(string, Value)>, key: string, value: Value)
    ensures Get(Put(fields, key, value), key) == Some(value)
    ensures forall k :: k != key ==> Get(Put(fields, key, value), k) == Get(fields, k)
  {
    if fields != [] {
      var f, tail := fields[0], fields[1..];
      assert fields == [f] + tail;
      ConsFacts(f, tail);
      if f.0 == key {
        ConsFacts((key, value), tail);
      } else {
        PutGet(tail, key, value);
        ConsFacts(f, Put(tail, key, value));
      }
    }
  }

  /** `d[key] = value` keeps the key order, and a new key goes last. */
  lemma {:induction false} PutKeys(fields: seq<(string, Value)>, key: string, value: Value)
    ensures key in Keys(fields) ==> Keys(Put(fields, key, value)) == Keys(fields)
    ensures key !in Keys(fields) ==> Put(fields, key, value) == fields + [(key, value)]
  {
    if fields != [] {
      var f, tail := fields[0], fields[1..];
      assert fields == [f] + tail;
      ConsFacts(f, tail);
      if f.0 == key {
        ConsFacts((key, value), tail);
      } else {
        PutKeys(tail, key, value);
        ConsFacts(f, Put(tail, key, value));
        if key !in Keys(fields) {
          assert [f] + (tail + [(key, value)]) == fields + [(key, value)];
        }
      }
    }
  }

  /** How Keys and Get see one entry placed in front of others. */
  lemma ConsFacts(f: (string, Value), rest: seq<(string, Value)>)
    ensures Keys([f] + rest) == [f.0] + Keys(rest)
    ensures forall k :: Get([f] + rest, k) == if f.0 == k then Some(f.1) else Get(rest, k)
  {
    assert ([f] + rest)[1..] == rest;
  }

  /** The keys of an object value, in order; no keys for any other value. */
  function KeysOf(v: Value): seq<string> {
    if v.Obj? then Keys(v.fields) else []
  }

  /** `v[key]` for an object value. */
  function Field(v: Value, key: string): Option<Value> {
    if v.Obj? then Get(v.fields, key) else None
  }
}
