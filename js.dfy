/** JavaScript values as the tracker handles them, and plain objects as
    ordered dictionaries: an object's own keys in insertion order plus the
    value stored under each key. Property writes keep an existing key in
    its place and append a new key at the end, which is what object spread
    (`{...a, ...b}`), `Object.keys` and `obj[k] = v` rely on. */
module Js {

  datatype Option<+T> = None | Some(value: T)

  /** A host value. Numbers are the integers the tracker stores (timestamps,
      viewport sizes); a host function is known only by its identity. */
  datatype Value =
    | Undefined
    | Null
    | Bool(b: bool)
    | Num(n: int)
    | Str(s: string)
    | Func(id: nat)
    | Obj(rec: Record)

  /** A plain object. `keys` is the order `Object.keys` reports; `vals`
      holds the value of each key. Every object the model builds is `Wf`. */
  datatype Record = Record(keys: seq<string>, vals: map<string, Value>)

  const Empty: Record := Record([], map[])

  ghost predicate DistinctKeys(ks: seq<string>)
  {
    forall i, j :: 0 <= i < j < |ks| ==> ks[i] != ks[j]
  }

  /** Well-formed: each key listed once, and exactly the listed keys have values. */
  ghost predicate Wf(r: Record)
  {
    DistinctKeys(r.keys) && (forall k :: k in r.vals <==> k in r.keys)
  }

  /** The object with keys `ks` and, pairwise, values `vs`. */
  function Zip(ks: seq<string>, vs: seq<Value>): (r: Record)
    requires DistinctKeys(ks) && |vs| == |ks|
    ensures Wf(r)
  {
    Record(ks, map i | 0 <= i < |ks| :: ks[i] := vs[i])
  }

  lemma ZipAt(ks: seq<string>, vs: seq<Value>, j: nat)
    requires DistinctKeys(ks) && |vs| == |ks| && j < |ks|
    ensures ks[j] in Zip(ks, vs).vals && Zip(ks, vs).vals[ks[j]] == vs[j]
  {
  }

  /** `obj[k]`: a missing property reads as `undefined`. */
  function Get(r: Record, k: string): Value
  {
    if k in r.vals then r.vals[k] else Undefined
  }

  /** JavaScript truthiness (`if (v)`, `a || b`). */
  predicate Truthy(v: Value)
  {
    match v
    case Undefined => false
    case Null => false
    case Bool(b) => b
    case Num(n) => n != 0
    case Str(s) => s != ""
    case Func(_) => true
    case Obj(_) => true
  }

  /** `obj[k] = v`: an existing key keeps its position, a new key goes last. */
  function Put(r: Record, k: string, v: Value): (r': Record)
    requires Wf(r)
    ensures Wf(r')
    ensures r'.vals == r.vals[k := v]
    ensures r'.keys == if k in r.vals then r.keys else r.keys + [k]
  {
    if k in r.vals then Record(r.keys, r.vals[k := v])
    else Record(r.keys + [k], r.vals[k := v])
  }

  /** Copies `src[k]` onto `acc` for each `k` of `ks`, left to right. */
  function PutAll(acc: Record, src: Record, ks: seq<string>): (r: Record)
    requires Wf(acc)
    ensures Wf(r)
    ensures forall k :: k in r.vals <==> k in acc.vals || k in ks
    ensures forall k :: k in ks ==> r.vals[k] == Get(src, k)
    ensures forall k :: k in acc.vals && k !in ks ==> r.vals[k] == acc.vals[k]
    ensures acc.keys <= r.keys
    decreases |ks|
  {
    if ks == [] then acc
    else
      var acc' := Put(acc, ks[0], Get(src, ks[0]));
      var r := PutAll(acc', src, ks[1..]);
      assert forall k :: k in ks <==> k == ks[0] || k in ks[1..];
      r
  }

  /** The property writes of `PutAll`, on the value map alone. */
  function Writes(m: map<string, Value>, src: Record, ks: seq<string>): map<string, Value>
    decreases |ks|
  {
    if ks == [] then m else Writes(m[ks[0] := Get(src, ks[0])], src, ks[1..])
  }

  lemma {:induction false} PutAllWrites(acc: Record, src: Record, ks: seq<string>)
    requires Wf(acc)
    ensures PutAll(acc, src, ks).vals == Writes(acc.vals, src, ks)
    decreases |ks|
  {
    if ks != [] {
      PutAllWrites(Put(acc, ks[0], Get(src, ks[0])), src, ks[1..]);
    }
  }

  /** `{...a, ...b}`: the keys of both, and on a shared key `b`'s value wins. */
  function Spread(a: Record, b: Record): (r: Record)
    requires Wf(a)
    ensures Wf(r)
    ensures forall k :: k in r.vals <==> k in a.vals || k in b.keys
    ensures forall k :: k in b.keys ==> r.vals[k] == Get(b, k)
    ensures forall k :: k in a.vals && k !in b.keys ==> r.vals[k] == a.vals[k]
    ensures a.keys <= r.keys
  {
    PutAll(a, b, b.keys)
  }

  /** `{...a, ...b}` on the value map: `b`'s properties written over `a`'s. */
  lemma SpreadWrites(a: Record, b: Record)
    requires Wf(a)
    ensures Spread(a, b).vals == Writes(a.vals, b, b.keys)
  {
    PutAllWrites(a, b, b.keys);
  }

  /** An object literal `{k1: v1, k2: v2, ...}` written out in source order. */
  function Literal(entries: seq<(string, Value)>): (r: Record)
    ensures Wf(r)
    decreases |entries|
  {
    if entries == [] then Empty
    else
      var prefix := Literal(entries[..|entries| - 1]);
      var last := entries[|entries| - 1];
      Put(prefix, last.0, last.1)
  }

  /** No later entry of the literal writes the key of entry `i` again. */
  predicate LastWith(entries: seq<(string, Value)>, i: nat)
    requires i < |entries|
  {
    forall j :: i < j < |entries| ==> entries[j].0 != entries[i].0
  }

  /** An entry no later entry overrides gives its key its value. */
  lemma {:induction false} LiteralValue(entries: seq<(string, Value)>, i: nat)
    requires i < |entries| && LastWith(entries, i)
    ensures entries[i].0 in Literal(entries).vals
    ensures Literal(entries).vals[entries[i].0] == entries[i].1
    decreases |entries|
  {
    var n := |entries| - 1;
    var init := entries[..n];
    var prefix := Literal(init);
    assert Literal(entries).vals == prefix.vals[entries[n].0 := entries[n].1];
    if i < n {
      LastWithInit(entries, i);
      LiteralValue(init, i);
    }
  }

  /** Dropping the last entry keeps entry `i` un-overridden, and the dropped
      entry wrote another key. */
  lemma LastWithInit(entries: seq<(string, Value)>, i: nat)
    requires i < |entries| - 1 && LastWith(entries, i)
    ensures LastWith(entries[..|entries| - 1], i)
    ensures entries[..|entries| - 1][i] == entries[i]
    ensures entries[|entries| - 1].0 != entries[i].0
  {
    var init := entries[..|entries| - 1];
    forall j | i < j < |init| ensures init[j].0 != init[i].0 {
      assert init[j] == entries[j];
    }
  }
}
