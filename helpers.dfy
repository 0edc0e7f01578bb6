/**
  The payload cleaner `_clear_payload`: it drops every `None`-valued key,
  recursing into values that are dicts and passing every other value,
  lists included, through unchanged.
 */
module Helpers {
  import opened Wrappers
  import opened Json

  /**
    The cleaned dict, as a function: the specification of ClearPayload and
    what the parameter builders use.
   */
  function Clean(d: Dict): Dict {
    if d == [] then []
    else
      var e := d[0];
      (if e.value.Null? then []
       else if e.value.Obj? then [Entry(e.key, Obj(Clean(e.value.entries)))]
       else [e])
      + Clean(d[1..])
  }

  /**
    `_clear_payload`: copies the dict, then walks the original's entries,
    deleting each `None`-valued key from the copy and replacing each dict
    value by its cleaned version.
   */
  method ClearPayload(payload: Dict) returns (p: Dict)
    requires WellFormed(Obj(payload))
    ensures p == Clean(payload)
    decreases payload
  {
    p := payload;
    var i := 0;
    while i < |payload|
      invariant 0 <= i <= |payload|
      invariant p == Clean(payload[..i]) + payload[i..]
    {
      var key, value := payload[i].key, payload[i].value;
      if value.Null? {
        DropStep(payload, i, p);
        p := Delete(p, key);
      } else if value.Obj? {
        assert WellFormed(payload[i].value);
        var cleaned := ClearPayload(value.entries);
        ReplaceStep(payload, i, p, cleaned);
        p := Put(p, key, Obj(cleaned));
      } else {
        KeepStep(payload, i, p);
      }
      i := i + 1;
    }
    assert payload[..i] == payload;
  }

  /** A `None` entry: deleting its key from the copy extends the cleaned prefix. */
  lemma DropStep(payload: Dict, i: nat, p: Dict)
    requires i < |payload| && UniqueKeys(payload) && payload[i].value.Null?
    requires p == Clean(payload[..i]) + payload[i..]
    ensures payload[i].key in Keys(p)
    ensures Delete(p, payload[i].key) == Clean(payload[..i + 1]) + payload[i + 1..]
  {
    var a, e, b := Clean(payload[..i]), payload[i], payload[i + 1..];
    LoopStep(payload, i);
    CleanSingle(e);
    assert Clean(payload[..i + 1]) == a by {
      assert a + [] == a;
    }
    DeleteMiddle(a, e, b);
  }

  /** A dict entry: storing its cleaned version in the copy extends the cleaned prefix. */
  lemma ReplaceStep(payload: Dict, i: nat, p: Dict, cleaned: Dict)
    requires i < |payload| && UniqueKeys(payload) && payload[i].value.Obj?
    requires p == Clean(payload[..i]) + payload[i..]
    requires cleaned == Clean(payload[i].value.entries)
    ensures Put(p, payload[i].key, Obj(cleaned)) == Clean(payload[..i + 1]) + payload[i + 1..]
  {
    LoopStep(payload, i);
    CleanSingle(payload[i]);
    PutMiddle(Clean(payload[..i]), payload[i], payload[i + 1..], Obj(cleaned));
  }

  /** Any other entry: the copy already holds it, cleaned. */
  lemma KeepStep(payload: Dict, i: nat, p: Dict)
    requires i < |payload| && UniqueKeys(payload)
    requires !payload[i].value.Null? && !payload[i].value.Obj?
    requires p == Clean(payload[..i]) + payload[i..]
    ensures p == Clean(payload[..i + 1]) + payload[i + 1..]
  {
    LoopStep(payload, i);
    CleanSingle(payload[i]);
  }

  /** What one pass of ClearPayload's loop relies on. */
  lemma LoopStep(payload: Dict, i: nat)
    requires i < |payload| && UniqueKeys(payload)
    ensures Clean(payload[..i]) + payload[i..] == Clean(payload[..i]) + [payload[i]] + payload[i + 1..]
    ensures payload[i].key !in Keys(Clean(payload[..i])) && payload[i].key !in Keys(payload[i + 1..])
    ensures Clean(payload[..i + 1]) == Clean(payload[..i]) + Clean([payload[i]])
  {
    SplitAt(payload, i);
    KeyOnlyAt(payload, i);
    CleanExtend(payload, i);
  }

  lemma SplitAt(payload: Dict, i: nat)
    requires i < |payload|
    ensures Clean(payload[..i]) + payload[i..] == Clean(payload[..i]) + [payload[i]] + payload[i + 1..]
  {
    assert payload[i..] == [payload[i]] + payload[i + 1..];
  }

  lemma KeyOnlyAt(payload: Dict, i: nat)
    requires i < |payload| && UniqueKeys(payload)
    ensures payload[i].key !in Keys(Clean(payload[..i])) && payload[i].key !in Keys(payload[i + 1..])
  {
    var a, e, b := payload[..i], payload[i], payload[i + 1..];
    Decompose(payload, i);
    UniqueKeysSplit(a, e, b);
    CleanKeysAmong(a, e.key);
  }

  lemma Decompose(d: Dict, i: nat)
    requires i < |d|
    ensures d == d[..i] + [d[i]] + d[i + 1..]
  {
  }

  lemma CleanExtend(payload: Dict, i: nat)
    requires i < |payload|
    ensures Clean(payload[..i + 1]) == Clean(payload[..i]) + Clean([payload[i]])
  {
    assert payload[..i + 1] == payload[..i] + [payload[i]];
    CleanConcat(payload[..i], [payload[i]]);
  }

  /** One entry cleaned on its own. */
  lemma CleanSingle(e: Entry)
    ensures Clean([e]) ==
      if e.value.Null? then []
      else if e.value.Obj? then [Entry(e.key, Obj(Clean(e.value.entries)))]
      else [e]
  {
    assert [e][1..] == [];
  }

  /** Cleaning distributes over concatenation: each entry is cleaned on its own. */
  lemma {:induction false} CleanConcat(a: Dict, b: Dict)
    ensures Clean(a + b) == Clean(a) + Clean(b)
  {
    if a == [] {
      assert a + b == b;
    } else {
      assert (a + b)[0] == a[0];
      assert (a + b)[1..] == a[1..] + b;
      CleanConcat(a[1..], b);
    }
  }

  /** Cleaning introduces no key. */
  lemma {:induction false} CleanKeysAmong(d: Dict, k: string)
    ensures k in Keys(Clean(d)) ==> k in Keys(d)
  {
    if d != [] {
      CleanKeysAmong(d[1..], k);
      var head := Clean([d[0]]);
      CleanSingle(d[0]);
      assert Clean(d) == head + Clean(d[1..]);
      KeysConcat(head, Clean(d[1..]));
    }
  }

  /** In a dict with unique keys, an entry's key occurs nowhere else. */
  lemma {:induction false} UniqueKeysSplit(a: Dict, e: Entry, b: Dict)
    requires UniqueKeys(a + [e] + b)
    ensures e.key !in Keys(a) && e.key !in Keys(b)
  {
    KeysConcat([e], b);
    if a == [] {
      assert a + [e] + b == [e] + b;
      assert ([e] + b)[1..] == b;
    } else {
      assert (a + [e] + b)[1..] == a[1..] + [e] + b;
      KeysConcat(a[1..] + [e], b);
      KeysConcat(a[1..], [e]);
      UniqueKeysSplit(a[1..], e, b);
    }
  }

  /** The keys whose value is not `None`, in their original order. */
  function PresentKeys(d: Dict): seq<string> {
    if d == [] then []
    else (if d[0].value.Null? then [] else [d[0].key]) + PresentKeys(d[1..])
  }

  /** No value is `None`, in this dict or in any dict nested in it as a value. */
  predicate NullFree(d: Dict) {
    forall i :: 0 <= i < |d| ==>
      !d[i].value.Null? && (d[i].value.Obj? ==> NullFree(d[i].value.entries))
  }

  /** The cleaned dict has exactly the keys whose value is not `None`, in their order. */
  lemma {:induction false} CleanKeys(d: Dict)
    ensures Keys(Clean(d)) == PresentKeys(d)
  {
    if d != [] {
      CleanSingle(d[0]);
      assert d == [d[0]] + d[1..];
      CleanConcat([d[0]], d[1..]);
      KeysConcat(Clean([d[0]]), Clean(d[1..]));
      CleanKeys(d[1..]);
    }
  }

  /** No `None` survives, at any depth reachable through nested dicts. */
  lemma {:induction false} CleanNullFree(d: Dict)
    ensures NullFree(Clean(d))
  {
    if d != [] {
      CleanSingle(d[0]);
      assert d == [d[0]] + d[1..];
      CleanConcat([d[0]], d[1..]);
      CleanNullFree(d[1..]);
      if d[0].value.Obj? {
        CleanNullFree(d[0].value.entries);
      }
      NullFreeConcat(Clean([d[0]]), Clean(d[1..]));
    }
  }

  lemma NullFreeConcat(a: Dict, b: Dict)
    requires NullFree(a) && NullFree(b)
    ensures NullFree(a + b)
  {
    forall i | 0 <= i < |a + b|
      ensures !(a + b)[i].value.Null? && ((a + b)[i].value.Obj? ==> NullFree((a + b)[i].value.entries))
    {
      if i < |a| {
        assert (a + b)[i] == a[i];
      } else {
        assert (a + b)[i] == b[i - |a|];
      }
    }
  }

  /** A dict is left as it is by the cleaner exactly when it holds no `None` at any dict depth. */
  lemma {:induction false} CleanFixesExactlyNullFree(d: Dict)
    ensures Clean(d) == d <==> NullFree(d)
  {
    CleanNullFree(d);
    if NullFree(d) {
      CleanFixesNullFree(d);
    }
  }

  lemma {:induction false} CleanFixesNullFree(d: Dict)
    requires NullFree(d)
    ensures Clean(d) == d
  {
    if d != [] {
      CleanSingle(d[0]);
      assert d == [d[0]] + d[1..];
      CleanConcat([d[0]], d[1..]);
      assert NullFree(d[1..]) by {
        forall i | 0 <= i < |d[1..]|
          ensures !d[1..][i].value.Null? && (d[1..][i].value.Obj? ==> NullFree(d[1..][i].value.entries))
        {
          assert d[1..][i] == d[i + 1];
        }
      }
      CleanFixesNullFree(d[1..]);
      if d[0].value.Obj? {
        CleanFixesNullFree(d[0].value.entries);
      }
    }
  }

  /** Cleaning twice gives what cleaning once gives. */
  lemma CleanIdempotent(d: Dict)
    ensures Clean(Clean(d)) == Clean(d)
  {
    CleanNullFree(d);
    CleanFixesNullFree(Clean(d));
  }

  /**
    Key by key: a `None` value or a missing key is absent afterwards, a dict
    value is replaced by its cleaned version, and every other value (`False`,
    `0`, `""`, lists — even lists holding dicts with `None` in them) is kept
    unchanged under the same key.
   */
  lemma {:induction false} CleanGet(d: Dict, k: string)
    requires UniqueKeys(d)
    ensures Get(d, k).None? ==> Get(Clean(d), k).None?
    ensures Get(d, k) == Some(Null) ==> Get(Clean(d), k).None?
    ensures Get(d, k).Some? && Get(d, k).value.Obj? ==>
      Get(Clean(d), k) == Some(Obj(Clean(Get(d, k).value.entries)))
    ensures Get(d, k).Some? && !Get(d, k).value.Null? && !Get(d, k).value.Obj? ==>
      Get(Clean(d), k) == Get(d, k)
  {
    if d != [] {
      CleanSingle(d[0]);
      assert d == [d[0]] + d[1..];
      CleanConcat([d[0]], d[1..]);
      var head := Clean([d[0]]);
      if d[0].key == k {
        CleanKeysAmong(d[1..], k);
        if head != [] {
          assert (head + Clean(d[1..]))[0] == head[0];
        } else {
          assert head + Clean(d[1..]) == Clean(d[1..]);
        }
      } else {
        CleanGet(d[1..], k);
        assert Get(d, k) == Get(d[1..], k);
        if head != [] {
          assert head[0].key == d[0].key && |head| == 1;
          assert (head + Clean(d[1..]))[0] == head[0];
          assert (head + Clean(d[1..]))[1..] == Clean(d[1..]);
          assert Get(Clean(d), k) == Get(Clean(d[1..]), k);
        } else {
          assert head + Clean(d[1..]) == Clean(d[1..]);
        }
      }
    }
  }

  /** A nested dict whose values are all `None` is kept, as `{}`. */
  lemma EmptiedDictSurvives(d: Dict, k: string, inner: Dict)
    requires UniqueKeys(d) && Get(d, k) == Some(Obj(inner))
    requires forall i :: 0 <= i < |inner| ==> inner[i].value.Null?
    ensures Get(Clean(d), k) == Some(Obj([]))
  {
    CleanGet(d, k);
    AllNullCleansToEmpty(inner);
  }

  lemma {:induction false} AllNullCleansToEmpty(d: Dict)
    requires forall i :: 0 <= i < |d| ==> d[i].value.Null?
    ensures Clean(d) == []
  {
    if d != [] {
      assert d[0].value.Null?;
      AllNullCleansToEmpty(d[1..]);
    }
  }

  /** Cleaning a dict literal whose keys are drawn from a set keeps them there. */
  lemma CleanKeysWithin(d: Dict, allowed: set<string>)
    requires forall i :: 0 <= i < |d| ==> d[i].key in allowed
    ensures forall k :: k in Keys(Clean(d)) ==> k in allowed
  {
    KeysWithin(d, allowed);
    forall k | k in Keys(Clean(d)) ensures k in allowed {
      CleanKeysAmong(d, k);
    }
  }

  /** An optional scalar field, cleaned: present exactly when it is given. */
  lemma CleanStrField(k: string, o: Option<string>)
    ensures Clean([Entry(k, StrOrNull(o))]) == StrField(k, o)
  {
    CleanSingle(Entry(k, StrOrNull(o)));
  }

  lemma CleanBoolField(k: string, o: Option<bool>)
    ensures Clean([Entry(k, BoolOrNull(o))]) == BoolField(k, o)
  {
    CleanSingle(Entry(k, BoolOrNull(o)));
  }

  lemma CleanIntField(k: string, o: Option<int>)
    ensures Clean([Entry(k, IntOrNull(o))]) == IntField(k, o)
  {
    CleanSingle(Entry(k, IntOrNull(o)));
  }

  lemma CleanFloatField(k: string, o: Option<Float64>)
    ensures Clean([Entry(k, FloatOrNull(o))]) == FloatField(k, o)
  {
    CleanSingle(Entry(k, FloatOrNull(o)));
  }

  /** A dict literal of two entries is cleaned entry by entry. */
  lemma CleanTwo(e0: Entry, e1: Entry)
    ensures Clean([e0, e1]) ==
      Clean([e0]) + Clean([e1])
  {
    assert [e0, e1] == [e0] + [e1];
    CleanConcat([e0], [e1]);
  }

  /** A dict literal of three entries is cleaned entry by entry. */
  lemma CleanThree(e0: Entry, e1: Entry, e2: Entry)
    ensures Clean([e0, e1, e2]) ==
      Clean([e0]) + Clean([e1]) + Clean([e2])
  {
    assert [e0, e1, e2] == [e0] + [e1] + [e2];
    CleanConcat([e0], [e1]);
    CleanConcat([e0] + [e1], [e2]);
  }

  /** A dict literal of four entries is cleaned entry by entry. */
  lemma CleanFour(e0: Entry, e1: Entry, e2: Entry, e3: Entry)
    ensures Clean([e0, e1, e2, e3]) ==
      Clean([e0]) + Clean([e1]) + Clean([e2]) + Clean([e3])
  {
    assert [e0, e1, e2, e3] == [e0] + [e1] + [e2] + [e3];
    CleanConcat([e0], [e1]);
    CleanConcat([e0] + [e1], [e2]);
    CleanConcat([e0] + [e1] + [e2], [e3]);
  }

  /** A dict literal of seven entries is cleaned entry by entry. */
  lemma CleanSeven(e0: Entry, e1: Entry, e2: Entry, e3: Entry, e4: Entry, e5: Entry, e6: Entry)
    ensures Clean([e0, e1, e2, e3, e4, e5, e6]) ==
      Clean([e0]) + Clean([e1]) + Clean([e2]) + Clean([e3]) + Clean([e4]) + Clean([e5]) + Clean([e6])
  {
    assert [e0, e1, e2, e3, e4, e5, e6] == [e0] + [e1] + [e2] + [e3] + [e4] + [e5] + [e6];
    CleanConcat([e0], [e1]);
    CleanConcat([e0] + [e1], [e2]);
    CleanConcat([e0] + [e1] + [e2], [e3]);
    CleanConcat([e0] + [e1] + [e2] + [e3], [e4]);
    CleanConcat([e0] + [e1] + [e2] + [e3] + [e4], [e5]);
    CleanConcat([e0] + [e1] + [e2] + [e3] + [e4] + [e5], [e6]);
  }

  /** A dict literal of eight entries is cleaned entry by entry. */
  lemma CleanEight(e0: Entry, e1: Entry, e2: Entry, e3: Entry, e4: Entry, e5: Entry, e6: Entry, e7: Entry)
    ensures Clean([e0, e1, e2, e3, e4, e5, e6, e7]) ==
      Clean([e0]) + Clean([e1]) + Clean([e2]) + Clean([e3]) + Clean([e4]) + Clean([e5]) + Clean([e6]) + Clean([e7])
  {
    assert [e0, e1, e2, e3, e4, e5, e6, e7] == [e0] + [e1] + [e2] + [e3] + [e4] + [e5] + [e6] + [e7];
    CleanConcat([e0], [e1]);
    CleanConcat([e0] + [e1], [e2]);
    CleanConcat([e0] + [e1] + [e2], [e3]);
    CleanConcat([e0] + [e1] + [e2] + [e3], [e4]);
    CleanConcat([e0] + [e1] + [e2] + [e3] + [e4], [e5]);
    CleanConcat([e0] + [e1] + [e2] + [e3] + [e4] + [e5], [e6]);
    CleanConcat([e0] + [e1] + [e2] + [e3] + [e4] + [e5] + [e6], [e7]);
  }

  /** A dict literal of eleven entries is cleaned entry by entry. */
  lemma CleanEleven(e0: Entry, e1: Entry, e2: Entry, e3: Entry, e4: Entry, e5: Entry, e6: Entry, e7: Entry, e8: Entry, e9: Entry, e10: Entry)
    ensures Clean([e0, e1, e2, e3, e4, e5, e6, e7, e8, e9, e10]) ==
      Clean([e0]) + Clean([e1]) + Clean([e2]) + Clean([e3]) + Clean([e4]) + Clean([e5]) + Clean([e6]) + Clean([e7]) + Clean([e8]) + Clean([e9]) + Clean([e10])
  {
    assert [e0, e1, e2, e3, e4, e5, e6, e7, e8, e9, e10] == [e0] + [e1] + [e2] + [e3] + [e4] + [e5] + [e6] + [e7] + [e8] + [e9] + [e10];
    CleanConcat([e0], [e1]);
    CleanConcat([e0] + [e1], [e2]);
    CleanConcat([e0] + [e1] + [e2], [e3]);
    CleanConcat([e0] + [e1] + [e2] + [e3], [e4]);
    CleanConcat([e0] + [e1] + [e2] + [e3] + [e4], [e5]);
    CleanConcat([e0] + [e1] + [e2] + [e3] + [e4] + [e5], [e6]);
    CleanConcat([e0] + [e1] + [e2] + [e3] + [e4] + [e5] + [e6], [e7]);
    CleanConcat([e0] + [e1] + [e2] + [e3] + [e4] + [e5] + [e6] + [e7], [e8]);
    CleanConcat([e0] + [e1] + [e2] + [e3] + [e4] + [e5] + [e6] + [e7] + [e8], [e9]);
    CleanConcat([e0] + [e1] + [e2] + [e3] + [e4] + [e5] + [e6] + [e7] + [e8] + [e9], [e10]);
  }
}
