/**
  The dynamically typed values that request payloads are made of, and the
  operations on Python dicts that the payload cleaner performs.
 */
module Json {
  import opened Wrappers

  /**
    A payload value. `Null` is Python's `None`: it is the "absent" marker of
    every optional field and also what would become JSON `null`. Floats are
    only carried, never computed with, so a float is its textual form.
   */
  datatype Value =
    | Null
    | Bool(b: bool)
    | Int(i: int)
    | Float(f: Float64)
    | Str(s: string)
    | Arr(items: seq<Value>)
    | Obj(entries: Dict)

  datatype Entry = Entry(key: string, value: Value)

  /** A Python float, carried as its textual form and never computed with. */
  datatype Float64 = Float64(repr: string)

  /**
    A `datetime`, through the two renderings the builders take of it:
    `isoformat()` and `int(timestamp())`.
   */
  datatype DateTime = DateTime(isoFormat: string, timestamp: int)

  /** Optional fields: a missing value is `None`. */
  function StrOrNull(o: Option<string>): Value { if o.Some? then Str(o.value) else Null }
  function BoolOrNull(o: Option<bool>): Value { if o.Some? then Bool(o.value) else Null }
  function IntOrNull(o: Option<int>): Value { if o.Some? then Int(o.value) else Null }
  function FloatOrNull(o: Option<Float64>): Value { if o.Some? then Float(o.value) else Null }
  function DictOrNull(o: Option<Dict>): Value { if o.Some? then Obj(o.value) else Null }

  /** The entry `k: x` when an optional field holds `x`, nothing when it is `None`. */
  function StrField(k: string, o: Option<string>): Dict { if o.Some? then [Entry(k, Str(o.value))] else [] }
  function BoolField(k: string, o: Option<bool>): Dict { if o.Some? then [Entry(k, Bool(o.value))] else [] }
  function IntField(k: string, o: Option<int>): Dict { if o.Some? then [Entry(k, Int(o.value))] else [] }
  function FloatField(k: string, o: Option<Float64>): Dict { if o.Some? then [Entry(k, Float(o.value))] else [] }

  /** A Python dict: its entries in insertion order, which is observable. */
  type Dict = seq<Entry>

  /** The keys of `d` in order. */
  function Keys(d: Dict): (ks: seq<string>)
    ensures |ks| == |d|
  {
    if d == [] then [] else [d[0].key] + Keys(d[1..])
  }

  /** No key occurs twice. */
  predicate UniqueKeys(d: Dict) {
    d == [] || (d[0].key !in Keys(d[1..]) && UniqueKeys(d[1..]))
  }

  /** Every dict reachable in `v` has unique keys, as every Python dict does. */
  predicate WellFormed(v: Value) {
    match v
    case Arr(items) => forall i :: 0 <= i < |items| ==> WellFormed(items[i])
    case Obj(es) => UniqueKeys(es) && forall i :: 0 <= i < |es| ==> WellFormed(es[i].value)
    case _ => true
  }

  /** `d.get(k)`: the value stored under key `k`, if there is one. */
  function Get(d: Dict, k: string): (r: Option<Value>)
    ensures r.Some? <==> k in Keys(d)
  {
    if d == [] then None
    else if d[0].key == k then Some(d[0].value)
    else Get(d[1..], k)
  }

  /** `del d[k]`, which Python refuses (KeyError) when `k` is not a key. */
  function Delete(d: Dict, k: string): (r: Dict)
    requires k in Keys(d)
    ensures |r| == |d| - 1
  {
    if d[0].key == k then d[1..] else [d[0]] + Delete(d[1..], k)
  }

  /** `d[k] = v`: an existing key keeps its position, a new one goes last. */
  function Put(d: Dict, k: string, v: Value): (r: Dict)
    ensures Get(r, k) == Some(v)
  {
    if d == [] then [Entry(k, v)]
    else if d[0].key == k then [Entry(k, v)] + d[1..]
    else [d[0]] + Put(d[1..], k, v)
  }

  lemma {:induction false} KeysConcat(a: Dict, b: Dict)
    ensures Keys(a + b) == Keys(a) + Keys(b)
  {
    if a != [] {
      assert (a + b)[0] == a[0];
      assert (a + b)[1..] == a[1..] + b;
      KeysConcat(a[1..], b);
      calc {
        Keys(a + b);
        [a[0].key] + Keys(a[1..] + b);
        [a[0].key] + (Keys(a[1..]) + Keys(b));
        ([a[0].key] + Keys(a[1..])) + Keys(b);
      }
    } else {
      assert a + b == b;
    }
  }

  /** Deleting the entry under its key leaves the others in order. */
  lemma {:induction false} DeleteMiddle(a: Dict, e: Entry, b: Dict)
    requires e.key !in Keys(a)
    ensures e.key in Keys(a + [e] + b)
    ensures Delete(a + [e] + b, e.key) == a + b
  {
    KeysConcat(a + [e], b);
    KeysConcat(a, [e]);
    var d := a + [e] + b;
    if a == [] {
      assert d == [e] + b;
      assert d[1..] == b;
    } else {
      var rest := a[1..] + [e] + b;
      assert d == [a[0]] + rest;
      assert d[0].key != e.key;
      assert d[1..] == rest;
      assert Keys(a) == [a[0].key] + Keys(a[1..]);
      DeleteMiddle(a[1..], e, b);
      assert Delete(d, e.key) == [a[0]] + Delete(rest, e.key);
      assert [a[0]] + (a[1..] + b) == a + b;
    }
  }

  /** Assigning to an existing key replaces its value where it stands. */
  lemma {:induction false} PutMiddle(a: Dict, e: Entry, b: Dict, v: Value)
    requires e.key !in Keys(a)
    ensures Put(a + [e] + b, e.key, v) == a + [Entry(e.key, v)] + b
  {
    if a == [] {
      assert a + [e] + b == [e] + b;
      assert ([e] + b)[1..] == b;
    } else {
      var rest := a[1..] + [e] + b;
      assert a + [e] + b == [a[0]] + rest;
      assert a == [a[0]] + a[1..];
      KeysConcat([a[0]], a[1..]);
      PutMiddle(a[1..], e, b, v);
    }
  }

  /** A key that no entry carries is not a key. */
  lemma {:induction false} KeyAbsent(d: Dict, k: string)
    requires forall i :: 0 <= i < |d| ==> d[i].key != k
    ensures k !in Keys(d)
  {
    if d != [] {
      assert d[0].key != k;
      assert forall i :: 0 <= i < |d[1..]| ==> d[1..][i] == d[i + 1];
      KeyAbsent(d[1..], k);
    }
  }

  /** Keys drawn from a set of allowed names. */
  lemma {:induction false} KeysWithin(d: Dict, allowed: set<string>)
    requires forall i :: 0 <= i < |d| ==> d[i].key in allowed
    ensures forall k :: k in Keys(d) ==> k in allowed
  {
    if d != [] {
      assert forall i :: 0 <= i < |d[1..]| ==> d[1..][i] == d[i + 1];
      KeysWithin(d[1..], allowed);
    }
  }

  /** Entries in front that carry other keys do not change a lookup. */
  lemma {:induction false} GetPast(a: Dict, k: string, b: Dict)
    requires forall i :: 0 <= i < |a| ==> a[i].key != k
    ensures Get(a + b, k) == Get(b, k)
  {
    if a != [] {
      assert (a + b)[0] == a[0];
      assert (a + b)[1..] == a[1..] + b;
      assert forall i :: 0 <= i < |a[1..]| ==> a[1..][i] == a[i + 1];
      GetPast(a[1..], k, b);
    } else {
      assert a + b == b;
    }
  }

  /** The first entry carrying a key is the one a lookup finds. */
  lemma GetAt(a: Dict, e: Entry, b: Dict)
    requires forall i :: 0 <= i < |a| ==> a[i].key != e.key
    ensures Get(a + [e] + b, e.key) == Some(e.value)
  {
    assert a + [e] + b == a + ([e] + b);
    GetPast(a, e.key, [e] + b);
    assert ([e] + b)[0] == e;
  }

  /** Appending entries that do not carry a key does not make it a key. */
  lemma KeyOmittedRight(a: Dict, b: Dict, k: string)
    requires k !in Keys(b)
    ensures k in Keys(a + b) <==> k in Keys(a)
  {
    KeysConcat(a, b);
  }

  /** A lookup skips a prefix that does not carry the key. */
  lemma {:induction false} GetAfter(a: Dict, b: Dict, k: string)
    requires k !in Keys(a)
    ensures Get(a + b, k) == Get(b, k)
  {
    if a != [] {
      assert (a + b)[0] == a[0];
      assert (a + b)[1..] == a[1..] + b;
      GetAfter(a[1..], b, k);
    } else {
      assert a + b == b;
    }
  }

  /** A lookup stops in a prefix that carries the key. */
  lemma {:induction false} GetBefore(a: Dict, b: Dict, k: string)
    requires k in Keys(a)
    ensures Get(a + b, k) == Get(a, k)
  {
    assert (a + b)[0] == a[0];
    if a[0].key != k {
      assert (a + b)[1..] == a[1..] + b;
      GetBefore(a[1..], b, k);
    }
  }
}
