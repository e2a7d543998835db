/** The JavaScript values that occur in field and list options, with the
    few operations of the language the migration engine relies on:
    `typeof`, `===` on primitives, property reads and property writes. */
module JsValues {

  /** A JavaScript value. Plain objects and arrays are both `Obj`; an object
      is the sequence of its own enumerable properties in enumeration order
      (the order `Object.keys` and `for ... in` visit them). Numbers are
      modelled as integers. */
  datatype Value =
    | Undefined
    | Null
    | Bool(b: bool)
    | Num(n: int)
    | Str(s: string)
    | Obj(entries: seq<(string, Value)>)

  type Entries = seq<(string, Value)>

  /** The result of the `typeof` operator. */
  datatype JsType = TUndefined | TObject | TBoolean | TNumber | TString

  function TypeOf(v: Value): JsType {
    match v
    case Undefined => TUndefined
    case Null => TObject        // typeof null === "object"
    case Bool(_) => TBoolean
    case Num(_) => TNumber
    case Str(_) => TString
    case Obj(_) => TObject
  }

  /** `x === y` for two values that are not objects. Objects are compared by
      identity in JavaScript; the engine never compares them with `===`. */
  predicate StrictEquals(x: Value, y: Value) {
    match (x, y)
    case (Undefined, Undefined) => true
    case (Null, Null) => true
    case (Bool(a), Bool(b)) => a == b
    case (Num(a), Num(b)) => a == b
    case (Str(a), Str(b)) => a == b
    case _ => false
  }

  predicate HasKey(e: Entries, k: string) {
    exists i :: 0 <= i < |e| && e[i].0 == k
  }

  /** Reading property `k`: its value, or `undefined` when it is absent. */
  function Get(e: Entries, k: string): Value {
    if |e| == 0 then Undefined
    else if e[0].0 == k then e[0].1
    else Get(e[1..], k)
  }

  /** Writing property `k`: an existing property keeps its place and takes the
      new value; a new property is appended. */
  function Put(e: Entries, k: string, v: Value): (r: Entries)
    ensures |r| == if HasKey(e, k) then |e| else |e| + 1
  {
    if |e| == 0 then [(k, v)]
    else if e[0].0 == k then [(k, v)] + e[1..]
    else [e[0]] + Put(e[1..], k, v)
  }

  /** `Object.assign(target, source)`: the properties of `source`, in order,
      written onto `target`. */
  function Assign(target: Entries, source: Entries): Entries
    decreases |source|
  {
    if |source| == 0 then target
    else Assign(Put(target, source[0].0, source[0].1), source[1..])
  }

  predicate UniqueKeys(e: Entries) {
    forall i, j :: 0 <= i < j < |e| ==> e[i].0 != e[j].0
  }

  /** Every object inside `v` has each key at most once, as a JavaScript
      object does. */
  predicate WellFormed(v: Value) {
    match v
    case Obj(es) =>
      UniqueKeys(es) && forall i :: 0 <= i < |es| ==> WellFormed(es[i].1)
    case _ => true
  }

  /** No `null` occurs anywhere in `v`. */
  predicate NullFree(v: Value) {
    match v
    case Null => false
    case Obj(es) => forall i :: 0 <= i < |es| ==> NullFree(es[i].1)
    case _ => true
  }

  lemma {:induction false} GetUnique(e: Entries, i: nat)
    requires UniqueKeys(e) && i < |e|
    ensures Get(e, e[i].0) == e[i].1
  {
    if i > 0 {
      assert UniqueKeys(e[1..]) by {
        forall a, b | 0 <= a < b < |e[1..]| ensures e[1..][a].0 != e[1..][b].0 {
          assert e[1..][a] == e[a + 1] && e[1..][b] == e[b + 1];
        }
      }
      assert e[0].0 != e[i].0;
      GetUnique(e[1..], i - 1);
      assert e[1..][i - 1] == e[i];
    }
  }

  lemma {:induction false} GetAbsent(e: Entries, k: string)
    requires !HasKey(e, k)
    ensures Get(e, k) == Undefined
  {
    if |e| > 0 {
      assert e[0].0 != k;
      assert !HasKey(e[1..], k) by {
        forall i | 0 <= i < |e[1..]| ensures e[1..][i].0 != k {
          assert e[1..][i] == e[i + 1];
        }
      }
      GetAbsent(e[1..], k);
    }
  }

  /** Writing a property that is not there yet appends it. */
  lemma {:induction false} PutNewKey(e: Entries, k: string, v: Value)
    requires !HasKey(e, k)
    ensures Put(e, k, v) == e + [(k, v)]
  {
    if |e| > 0 {
      assert e[0].0 != k;
      assert !HasKey(e[1..], k) by {
        forall i | 0 <= i < |e[1..]| ensures e[1..][i].0 != k {
          assert e[1..][i] == e[i + 1];
        }
      }
      PutNewKey(e[1..], k, v);
      assert [e[0]] + (e[1..] + [(k, v)]) == e + [(k, v)];
    }
  }

  /** After writing `k`, reading `k` gives the new value and every other
      property reads as before. */
  lemma {:induction false} PutGet(e: Entries, k: string, v: Value, k2: string)
    ensures Get(Put(e, k, v), k2) == if k2 == k then v else Get(e, k2)
    ensures HasKey(Put(e, k, v), k2) <==> k2 == k || HasKey(e, k2)
  {
    if |e| > 0 && e[0].0 != k {
      PutGet(e[1..], k, v, k2);
      HasKeyCons(e[0], Put(e[1..], k, v), k2);
      HasKeyCons(e[0], e[1..], k2);
      assert [e[0]] + e[1..] == e;
    } else if |e| > 0 {
      HasKeyCons((k, v), e[1..], k2);
      HasKeyCons(e[0], e[1..], k2);
      assert [e[0]] + e[1..] == e;
    }
  }

  lemma {:induction false} HasKeyCons(x: (string, Value), e: Entries, k: string)
    ensures HasKey([x] + e, k) <==> x.0 == k || HasKey(e, k)
  {
    if HasKey(e, k) {
      var i :| 0 <= i < |e| && e[i].0 == k;
      assert ([x] + e)[i + 1] == e[i];
    }
    assert ([x] + e)[0] == x;
    if HasKey([x] + e, k) && x.0 != k {
      var i :| 0 <= i < |[x] + e| && ([x] + e)[i].0 == k;
      assert e[i - 1] == ([x] + e)[i];
    }
  }

  /** Writing a property keeps the keys of an object unique. */
  lemma {:induction false} PutUnique(e: Entries, k: string, v: Value)
    requires UniqueKeys(e)
    ensures UniqueKeys(Put(e, k, v))
  {
    if |e| > 0 {
      var t := e[1..];
      assert UniqueKeys(t) by {
        forall a, b | 0 <= a < b < |t| ensures t[a].0 != t[b].0 {
          assert t[a] == e[a + 1] && t[b] == e[b + 1];
        }
      }
      assert !HasKey(t, e[0].0) by {
        forall i | 0 <= i < |t| ensures t[i].0 != e[0].0 {
          assert t[i] == e[i + 1];
        }
      }
      if e[0].0 == k {
        UniqueCons((k, v), t);
      } else {
        PutUnique(t, k, v);
        PutGet(t, k, v, e[0].0);
        UniqueCons(e[0], Put(t, k, v));
      }
    }
  }

  lemma {:induction false} UniqueCons(x: (string, Value), e: Entries)
    requires UniqueKeys(e) && !HasKey(e, x.0)
    ensures UniqueKeys([x] + e)
  {
    var r := [x] + e;
    forall a, b | 0 <= a < b < |r| ensures r[a].0 != r[b].0 {
      assert r[b] == e[b - 1];
      if a > 0 {
        assert r[a] == e[a - 1];
      }
    }
  }

  /** After `Object.assign(target, source)` with a source whose keys are
      unique, a key of the source reads as in the source and any other key
      as in the target; the keys are those of both; unique keys stay unique. */
  lemma {:induction false} AssignGet(target: Entries, source: Entries, k: string)
    requires UniqueKeys(source)
    ensures Get(Assign(target, source), k) == if HasKey(source, k) then Get(source, k) else Get(target, k)
    ensures HasKey(Assign(target, source), k) <==> HasKey(source, k) || HasKey(target, k)
    decreases |source|
  {
    if |source| > 0 {
      var t := source[1..];
      assert UniqueKeys(t) by {
        forall a, b | 0 <= a < b < |t| ensures t[a].0 != t[b].0 {
          assert t[a] == source[a + 1] && t[b] == source[b + 1];
        }
      }
      assert !HasKey(t, source[0].0) by {
        forall i | 0 <= i < |t| ensures t[i].0 != source[0].0 {
          assert t[i] == source[i + 1];
        }
      }
      AssignGet(Put(target, source[0].0, source[0].1), t, k);
      PutGet(target, source[0].0, source[0].1, k);
      HasKeyCons(source[0], t, k);
      assert [source[0]] + t == source;
      if source[0].0 != k && HasKey(t, k) {
        assert Get(source, k) == Get(t, k);
      }
    }
  }

  lemma {:induction false} AssignUnique(target: Entries, source: Entries)
    requires UniqueKeys(target)
    ensures UniqueKeys(Assign(target, source))
    decreases |source|
  {
    if |source| > 0 {
      PutUnique(target, source[0].0, source[0].1);
      AssignUnique(Put(target, source[0].0, source[0].1), source[1..]);
    }
  }
}
