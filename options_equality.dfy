/** The structural equality the differ uses to compare two fields' options
    (lib/migration_builder.js, `_areObjectsEqualRecursive` and
    `_areFieldOptionsEqual`), with its quirks: it compares key counts, then
    walks the first object's keys in order, answers `false` at the first key
    whose `typeof` or primitive value differs, and at the first key holding
    an object returns the comparison of the two nested values without looking
    at later keys. Key lookups in the second object are by name, so a key
    missing there reads as `undefined`. */
module OptionsEquality {
  import opened Wrappers
  import opened JsValues
  import opened Schema

  /** `typeof v === "object"`: an object or `null`. */
  predicate IsObjectTyped(v: Value) {
    TypeOf(v) == TObject
  }

  /** `_areObjectsEqualRecursive(o1, o2)`: `Object.keys` of `null` throws. */
  function ObjectsEqual(o1: Value, o2: Value): Result<bool, Error>
    requires IsObjectTyped(o1) && IsObjectTyped(o2)
    decreases o1, 1, 0
  {
    if o1.Null? || o2.Null? then Err(NullHasNoKeys)
    else if |o1.entries| != |o2.entries| then Ok(false)
    else ScanKeys(o1, o2, 0)
  }

  /** The key loop of `_areObjectsEqualRecursive`, from the `i`-th key of `o1` on. */
  function ScanKeys(o1: Value, o2: Value, i: nat): Result<bool, Error>
    requires o1.Obj? && o2.Obj? && i <= |o1.entries|
    decreases o1, 0, |o1.entries| - i
  {
    if i == |o1.entries| then Ok(true)
    else
      var x1 := o1.entries[i].1;
      var x2 := Get(o2.entries, o1.entries[i].0);
      if TypeOf(x1) != TypeOf(x2) then Ok(false)
      else if TypeOf(x1) == TObject then ObjectsEqual(x1, x2)
      else if !StrictEquals(x1, x2) then Ok(false)
      else ScanKeys(o1, o2, i + 1)
  }

  /** `_areFieldOptionsEqual`: same `type`, then equal options. */
  function FieldOptionsEqual(source: Field, target: Field): Result<bool, Error> {
    if source.fieldType != target.fieldType then Ok(false)
    else ObjectsEqual(Obj(source.options), Obj(target.options))
  }

  /** The loop with early returns of `_areObjectsEqualRecursive`. */
  method AreObjectsEqualRecursive(object1: Value, object2: Value) returns (r: Result<bool, Error>)
    requires IsObjectTyped(object1) && IsObjectTyped(object2)
    ensures r == ObjectsEqual(object1, object2)
    decreases object1
  {
    if object1.Null? || object2.Null? {
      return Err(NullHasNoKeys);
    }
    if |object1.entries| != |object2.entries| {
      return Ok(false);
    }
    var i := 0;
    while i < |object1.entries|
      invariant 0 <= i <= |object1.entries|
      invariant ScanKeys(object1, object2, i) == ScanKeys(object1, object2, 0)
    {
      var (key, x1) := object1.entries[i];
      var x2 := Get(object2.entries, key);
      if TypeOf(x1) != TypeOf(x2) {
        return Ok(false);
      }
      if TypeOf(x1) == TObject {
        r := AreObjectsEqualRecursive(x1, x2);
        return;
      }
      if !StrictEquals(x1, x2) {
        return Ok(false);
      }
      i := i + 1;
    }
    return Ok(true);
  }

  method AreFieldOptionsEqual(source: Field, target: Field) returns (r: Result<bool, Error>)
    ensures r == FieldOptionsEqual(source, target)
    ensures source.fieldType != target.fieldType ==> r == Ok(false)
  {
    if source.fieldType != target.fieldType {
      return Ok(false);
    }
    r := AreObjectsEqualRecursive(Obj(source.options), Obj(target.options));
  }

  // ---------------------------------------------------------------------
  // Properties

  /** Every object without `null` inside equals itself. */
  lemma {:induction false} ObjectsEqualReflexive(v: Value)
    requires v.Obj? && WellFormed(v) && NullFree(v)
    ensures ObjectsEqual(v, v) == Ok(true)
    decreases v, 1, 0
  {
    ScanKeysReflexive(v, 0);
  }

  lemma {:induction false} ScanKeysReflexive(v: Value, i: nat)
    requires v.Obj? && WellFormed(v) && NullFree(v) && i <= |v.entries|
    ensures ScanKeys(v, v, i) == Ok(true)
    decreases v, 0, |v.entries| - i
  {
    if i < |v.entries| {
      var x := v.entries[i].1;
      GetUnique(v.entries, i);
      assert WellFormed(x) && NullFree(x);
      if TypeOf(x) == TObject {
        ObjectsEqualReflexive(x);
      } else {
        assert StrictEquals(x, x);
        ScanKeysReflexive(v, i + 1);
      }
    }
  }

  /** Two fields of one type whose options hold no `null` compare equal. */
  lemma {:induction false} FieldOptionsEqualReflexive(f: Field)
    requires WellFormed(Obj(f.options)) && NullFree(Obj(f.options))
    ensures FieldOptionsEqual(f, f) == Ok(true)
  {
    ObjectsEqualReflexive(Obj(f.options));
  }

  /** The `i`-th key of `o1` holds a primitive equal (`===`) to the same key of `o2`. */
  predicate AgreesAt(o1: Value, o2: Value, i: nat)
    requires o1.Obj? && o2.Obj? && i < |o1.entries|
  {
    StrictEquals(o1.entries[i].1, Get(o2.entries, o1.entries[i].0))
  }

  /** No key before the `j`-th holds an object (or `null`). */
  predicate PrimitiveBefore(o1: Value, j: nat)
    requires o1.Obj? && j <= |o1.entries|
  {
    forall i :: 0 <= i < j ==> TypeOf(o1.entries[i].1) != TObject
  }

  lemma {:induction false} ScanSkipsAgreeing(o1: Value, o2: Value, i: nat, j: nat)
    requires o1.Obj? && o2.Obj? && i <= j <= |o1.entries|
    requires PrimitiveBefore(o1, j)
    requires forall k :: i <= k < j ==> AgreesAt(o1, o2, k)
    ensures ScanKeys(o1, o2, i) == ScanKeys(o1, o2, j)
    decreases j - i
  {
    if i < j {
      assert AgreesAt(o1, o2, i);
      assert TypeOf(o1.entries[i].1) != TObject;
      ScanSkipsAgreeing(o1, o2, i + 1, j);
    }
  }

  /** Before the first object-valued key, a key whose `typeof` differs decides
      the comparison: `false`. */
  lemma {:induction false} TypeofMismatchIsUnequal(o1: Value, o2: Value, j: nat)
    requires o1.Obj? && o2.Obj? && |o1.entries| == |o2.entries| && j < |o1.entries|
    requires PrimitiveBefore(o1, j)
    requires TypeOf(o1.entries[j].1) != TypeOf(Get(o2.entries, o1.entries[j].0))
    ensures ObjectsEqual(o1, o2) == Ok(false)
  {
    ScanFalseBy(o1, o2, 0, j);
  }

  lemma {:induction false} ScanFalseBy(o1: Value, o2: Value, i: nat, j: nat)
    requires o1.Obj? && o2.Obj? && i <= j < |o1.entries|
    requires PrimitiveBefore(o1, j)
    requires TypeOf(o1.entries[j].1) != TypeOf(Get(o2.entries, o1.entries[j].0))
    ensures ScanKeys(o1, o2, i) == Ok(false)
    decreases j - i
  {
    if i < j {
      assert TypeOf(o1.entries[i].1) != TObject;
      ScanFalseBy(o1, o2, i + 1, j);
    }
  }

  /** Key counts that differ make the objects unequal. */
  lemma {:induction false} KeyCountMismatchIsUnequal(o1: Value, o2: Value)
    requires o1.Obj? && o2.Obj? && |o1.entries| != |o2.entries|
    ensures ObjectsEqual(o1, o2) == Ok(false)
  {
  }

  /** At the first key holding an object the comparison returns the nested
      comparison, whatever the later keys hold. */
  lemma {:induction false} FirstObjectKeyDecides(o1: Value, o2: Value, j: nat)
    requires o1.Obj? && o2.Obj? && |o1.entries| == |o2.entries| && j < |o1.entries|
    requires PrimitiveBefore(o1, j)
    requires forall k :: 0 <= k < j ==> AgreesAt(o1, o2, k)
    requires IsObjectTyped(o1.entries[j].1) && IsObjectTyped(Get(o2.entries, o1.entries[j].0))
    ensures ObjectsEqual(o1, o2) == ObjectsEqual(o1.entries[j].1, Get(o2.entries, o1.entries[j].0))
  {
    ScanSkipsAgreeing(o1, o2, 0, j);
  }

  /** For objects with primitive values only, equality is exactly: same key
      count and every key of the first `===` the same key of the second. */
  lemma {:induction false} FlatObjectsEqual(o1: Value, o2: Value)
    requires o1.Obj? && o2.Obj? && PrimitiveBefore(o1, |o1.entries|)
    ensures ObjectsEqual(o1, o2) ==
      Ok(|o1.entries| == |o2.entries| && forall k :: 0 <= k < |o1.entries| ==> AgreesAt(o1, o2, k))
  {
    if |o1.entries| == |o2.entries| {
      ScanFlat(o1, o2, 0);
    }
  }

  lemma {:induction false} ScanFlat(o1: Value, o2: Value, i: nat)
    requires o1.Obj? && o2.Obj? && i <= |o1.entries| && PrimitiveBefore(o1, |o1.entries|)
    ensures ScanKeys(o1, o2, i) == Ok(forall k :: i <= k < |o1.entries| ==> AgreesAt(o1, o2, k))
    decreases |o1.entries| - i
  {
    if i < |o1.entries| {
      var x1 := o1.entries[i].1;
      assert TypeOf(x1) != TObject;
      ScanFlat(o1, o2, i + 1);
      if !AgreesAt(o1, o2, i) {
        assert ScanKeys(o1, o2, i) == Ok(false);
      } else {
        assert ScanKeys(o1, o2, i) == ScanKeys(o1, o2, i + 1);
      }
    }
  }

  lemma {:induction false} GetNullFree(e: Entries, k: string)
    requires NullFree(Obj(e))
    ensures NullFree(Get(e, k))
  {
    if |e| > 0 && e[0].0 != k {
      assert NullFree(Obj(e[1..])) by {
        forall i | 0 <= i < |e[1..]| ensures NullFree(e[1..][i].1) {
          assert e[1..][i] == e[i + 1];
        }
      }
      GetNullFree(e[1..], k);
    }
  }

  /** The comparison throws only when it meets `null`: on objects without
      `null` inside it always answers. */
  lemma {:induction false} ObjectsEqualDefinedWithoutNull(o1: Value, o2: Value)
    requires o1.Obj? && o2.Obj? && NullFree(o1) && NullFree(o2)
    ensures ObjectsEqual(o1, o2).Ok?
    decreases o1, 1, 0
  {
    if |o1.entries| == |o2.entries| {
      ScanDefinedWithoutNull(o1, o2, 0);
    }
  }

  lemma {:induction false} ScanDefinedWithoutNull(o1: Value, o2: Value, i: nat)
    requires o1.Obj? && o2.Obj? && NullFree(o1) && NullFree(o2) && i <= |o1.entries|
    ensures ScanKeys(o1, o2, i).Ok?
    decreases o1, 0, |o1.entries| - i
  {
    if i < |o1.entries| {
      var x1 := o1.entries[i].1;
      var x2 := Get(o2.entries, o1.entries[i].0);
      GetNullFree(o2.entries, o1.entries[i].0);
      assert NullFree(x1);
      if TypeOf(x1) == TypeOf(x2) && TypeOf(x1) == TObject {
        ObjectsEqualDefinedWithoutNull(x1, x2);
      } else if TypeOf(x1) == TypeOf(x2) && StrictEquals(x1, x2) {
        ScanDefinedWithoutNull(o1, o2, i + 1);
      }
    }
  }

  lemma {:induction false} FieldOptionsEqualDefinedWithoutNull(s: Field, t: Field)
    requires NullFree(Obj(s.options)) && NullFree(Obj(t.options))
    ensures FieldOptionsEqual(s, t).Ok?
  {
    ObjectsEqualDefinedWithoutNull(Obj(s.options), Obj(t.options));
  }
}
