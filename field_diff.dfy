/** The field differ of lib/migration_builder.js (`_diffListFields`): a
    name-then-position heuristic that compares the cached fields of a list
    (source) with its current fields (target) and sorts the differences into
    four buckets. Fields with the same name are paired first and become an
    update when their options differ. The remaining fields of both sides are
    then paired by position: equal options make a rename, different options
    an add of the target plus a remove of the source, a source without a
    counterpart a remove, and the targets left over at the end adds. */
module FieldDiff {
  import opened Wrappers
  import opened JsValues
  import opened Schema
  import opened OptionsEquality

  /** An entry `{source, target}` of the update and rename buckets. */
  datatype Pair = Pair(source: Field, target: Field)

  /** `{addField, updateField, renameField, removeField}`; an add holds its
      target field, a remove its source field. */
  datatype Diff = Diff(addField: seq<Field>, updateField: seq<Pair>, renameField: seq<Pair>, removeField: seq<Field>)

  /** The state of the name pass: the updates found and `doneFieldNames`. */
  datatype NameMatches = NameMatches(updates: seq<Pair>, done: seq<string>)

  /** The state of the positional pass. */
  datatype Buckets = Buckets(adds: seq<Field>, renames: seq<Pair>, removes: seq<Field>)

  /** The name pass over the first `n` source fields. */
  function NamePass(src: seq<Field>, tgt: seq<Field>, n: nat): Result<NameMatches, Error>
    requires n <= |src|
  {
    if n == 0 then Ok(NameMatches([], []))
    else match NamePass(src, tgt, n - 1)
      case Err(e) => Err(e)
      case Ok(acc) =>
        var field := src[n - 1];
        match FindByName(tgt, field.name)
        case None => Ok(acc)
        case Some(t) =>
          match FieldOptionsEqual(field, t)
          case Err(e) => Err(e)
          case Ok(equal) =>
            Ok(NameMatches(if equal then acc.updates else acc.updates + [Pair(field, t)],
                           acc.done + [field.name]))
  }

  /** `fs.filter(f => !done.includes(f.name))`. */
  function WithoutNames(fs: seq<Field>, done: seq<string>): (r: seq<Field>)
    ensures |r| <= |fs|
  {
    if |fs| == 0 then []
    else (if fs[0].name in done then [] else [fs[0]]) + WithoutNames(fs[1..], done)
  }

  /** The positional pass over the first `n` leftover source fields. */
  function PositionalPass(ls: seq<Field>, lt: seq<Field>, n: nat): Result<Buckets, Error>
    requires n <= |ls|
  {
    if n == 0 then Ok(Buckets([], [], []))
    else match PositionalPass(ls, lt, n - 1)
      case Err(e) => Err(e)
      case Ok(b) =>
        var field := ls[n - 1];
        if n - 1 >= |lt| then Ok(b.(removes := b.removes + [field]))
        else match FieldOptionsEqual(field, lt[n - 1])
          case Err(e) => Err(e)
          case Ok(equal) =>
            if equal then Ok(b.(renames := b.renames + [Pair(field, lt[n - 1])]))
            else Ok(Buckets(b.adds + [lt[n - 1]], b.renames, b.removes + [field]))
  }

  /** The leftover targets past the last leftover source, in order. */
  function TailAdds(ls: seq<Field>, lt: seq<Field>): seq<Field> {
    if |lt| > |ls| then lt[|ls|..] else []
  }

  /** The specification of `_diffListFields(source, target)` on the two field lists. */
  function DiffFields(src: seq<Field>, tgt: seq<Field>): Result<Diff, Error> {
    match NamePass(src, tgt, |src|)
    case Err(e) => Err(e)
    case Ok(np) =>
      var ls := WithoutNames(src, np.done);
      var lt := WithoutNames(tgt, np.done);
      match PositionalPass(ls, lt, |ls|)
      case Err(e) => Err(e)
      case Ok(b) => Ok(Diff(b.adds + TailAdds(ls, lt), np.updates, b.renames, b.removes))
  }

  /** The source fields the name pass leaves: those whose name no target has. */
  function LeftoverSource(src: seq<Field>, tgt: seq<Field>): seq<Field> {
    WithoutNames(src, Names(tgt))
  }

  /** The target fields the name pass leaves: those whose name no source has. */
  function LeftoverTarget(src: seq<Field>, tgt: seq<Field>): seq<Field> {
    WithoutNames(tgt, Names(src))
  }

  method DiffListFields(sourceList: ListSchema, targetList: ListSchema) returns (r: Result<Diff, Error>)
    ensures r == DiffFields(sourceList.fields, targetList.fields)
  {
    var src, tgt := sourceList.fields, targetList.fields;
    var byName := MatchByName(src, tgt);
    if byName.Err? {
      return Err(byName.error);
    }
    var doneFieldNames := byName.value.done;
    var filteredSource := WithoutNames(src, doneFieldNames);
    var filteredTarget := WithoutNames(tgt, doneFieldNames);
    var byPosition := MatchByPosition(filteredSource, filteredTarget);
    if byPosition.Err? {
      return Err(byPosition.error);
    }
    var addField := AppendTail(byPosition.value.adds, filteredSource, filteredTarget);
    r := Ok(Diff(addField, byName.value.updates, byPosition.value.renames, byPosition.value.removes));
  }

  /** The final loop of `_diffListFields`: leftover targets past the leftover
      sources are added, in order. */
  method AppendTail(adds: seq<Field>, ls: seq<Field>, lt: seq<Field>) returns (addField: seq<Field>)
    ensures addField == adds + TailAdds(ls, lt)
  {
    addField := adds;
    if |lt| > |ls| {
      var k := |ls|;
      while k < |lt|
        invariant |ls| <= k <= |lt|
        invariant addField == adds + lt[|ls|..k]
      {
        addField := addField + [lt[k]];
        k := k + 1;
      }
      assert lt[|ls|..k] == TailAdds(ls, lt);
    } else {
      assert addField == adds + TailAdds(ls, lt);
    }
  }

  /** The first `forEach` of `_diffListFields`: updates and `doneFieldNames`. */
  method MatchByName(src: seq<Field>, tgt: seq<Field>) returns (r: Result<NameMatches, Error>)
    ensures r == NamePass(src, tgt, |src|)
  {
    var doneFieldNames: seq<string> := [];
    var updateField: seq<Pair> := [];
    var i := 0;
    while i < |src|
      invariant 0 <= i <= |src|
      invariant NamePass(src, tgt, i) == Ok(NameMatches(updateField, doneFieldNames))
    {
      var field := src[i];
      var targetField := FindByName(tgt, field.name);
      ghost var acc := NameMatches(updateField, doneFieldNames);
      if targetField.Some? {
        var equal := AreFieldOptionsEqual(field, targetField.value);
        NamePassMatched(src, tgt, i, acc, targetField.value);
        if equal.Err? {
          NamePassFailureSticks(src, tgt, i + 1, |src|);
          return Err(equal.error);
        }
        if !equal.value {
          updateField := updateField + [Pair(field, targetField.value)];
        }
        doneFieldNames := doneFieldNames + [field.name];
      } else {
        NamePassUnmatched(src, tgt, i, acc);
      }
      i := i + 1;
    }
    return Ok(NameMatches(updateField, doneFieldNames));
  }

  /** The second `forEach` of `_diffListFields`, over the leftover source fields. */
  method MatchByPosition(ls: seq<Field>, lt: seq<Field>) returns (r: Result<Buckets, Error>)
    ensures r == PositionalPass(ls, lt, |ls|)
  {
    var addField: seq<Field> := [];
    var renameField: seq<Pair> := [];
    var removeField: seq<Field> := [];
    var index := 0;
    while index < |ls|
      invariant 0 <= index <= |ls|
      invariant PositionalPass(ls, lt, index) == Ok(Buckets(addField, renameField, removeField))
    {
      var field := ls[index];
      if index >= |lt| {
        removeField := removeField + [field];
      } else {
        var targetField := lt[index];
        var equal := AreFieldOptionsEqual(field, targetField);
        if equal.Err? {
          PositionalFailureSticks(ls, lt, index + 1, |ls|);
          return Err(equal.error);
        }
        if equal.value {
          renameField := renameField + [Pair(field, targetField)];
        } else {
          addField := addField + [targetField];
          removeField := removeField + [field];
        }
      }
      index := index + 1;
    }
    return Ok(Buckets(addField, renameField, removeField));
  }

  /** One more source field without a same-named target: nothing changes. */
  lemma {:induction false} NamePassUnmatched(src: seq<Field>, tgt: seq<Field>, i: nat, acc: NameMatches)
    requires i < |src| && NamePass(src, tgt, i) == Ok(acc) && FindByName(tgt, src[i].name).None?
    ensures NamePass(src, tgt, i + 1) == Ok(acc)
  {
  }

  /** One more source field matched by name to `t`: a throw of the options
      comparison is the result, otherwise the name is done and, when the
      options differ, the pair is an update. */
  lemma {:induction false} NamePassMatched(src: seq<Field>, tgt: seq<Field>, i: nat, acc: NameMatches, t: Field)
    requires i < |src| && NamePass(src, tgt, i) == Ok(acc) && FindByName(tgt, src[i].name) == Some(t)
    ensures FieldOptionsEqual(src[i], t).Err? ==> NamePass(src, tgt, i + 1) == Err(FieldOptionsEqual(src[i], t).error)
    ensures FieldOptionsEqual(src[i], t).Ok? ==>
      var equal := FieldOptionsEqual(src[i], t).value;
      NamePass(src, tgt, i + 1) == Ok(NameMatches(if equal then acc.updates else acc.updates + [Pair(src[i], t)], acc.done + [src[i].name]))
  {
  }

  lemma {:induction false} NamePassFailureSticks(src: seq<Field>, tgt: seq<Field>, n: nat, m: nat)
    requires n <= m <= |src| && NamePass(src, tgt, n).Err?
    ensures NamePass(src, tgt, m) == NamePass(src, tgt, n)
    decreases m - n
  {
    if n < m {
      NamePassFailureSticks(src, tgt, n, m - 1);
    }
  }

  lemma {:induction false} PositionalFailureSticks(ls: seq<Field>, lt: seq<Field>, n: nat, m: nat)
    requires n <= m <= |ls| && PositionalPass(ls, lt, n).Err?
    ensures PositionalPass(ls, lt, m) == PositionalPass(ls, lt, n)
    decreases m - n
  {
    if n < m {
      PositionalFailureSticks(ls, lt, n, m - 1);
    }
  }

  // ---------------------------------------------------------------------
  // Properties of the name pass

  /** The done names are the source names that some target also has. */
  lemma {:induction false} NamePassDone(src: seq<Field>, tgt: seq<Field>, n: nat)
    requires n <= |src| && NamePass(src, tgt, n).Ok?
    ensures forall x :: x in NamePass(src, tgt, n).value.done <==>
      exists k :: 0 <= k < n && src[k].name == x && HasName(tgt, x)
  {
    if n > 0 {
      NamePassDone(src, tgt, n - 1);
      FindByNameFound(tgt, src[n - 1].name);
    }
  }

  /** A source field one of whose targets has its name was compared with that
      target without error, and is an update when they compare unequal. */
  lemma {:induction false} NamePassAt(src: seq<Field>, tgt: seq<Field>, n: nat, k: nat)
    requires k < n <= |src| && NamePass(src, tgt, n).Ok?
    requires FindByName(tgt, src[k].name).Some?
    ensures var t := FindByName(tgt, src[k].name).value;
      && FieldOptionsEqual(src[k], t).Ok?
      && (FieldOptionsEqual(src[k], t) == Ok(false) ==> Pair(src[k], t) in NamePass(src, tgt, n).value.updates)
  {
    if k < n - 1 {
      NamePassAt(src, tgt, n - 1, k);
    }
  }

  /** Every update pairs a source field with the target of its name, and
      their options compare unequal. */
  lemma {:induction false} NamePassUpdates(src: seq<Field>, tgt: seq<Field>, n: nat)
    requires n <= |src| && NamePass(src, tgt, n).Ok?
    ensures forall p :: p in NamePass(src, tgt, n).value.updates ==>
      && (exists k :: 0 <= k < n && p.source == src[k] && FindByName(tgt, src[k].name) == Some(p.target))
      && FieldOptionsEqual(p.source, p.target) == Ok(false)
  {
    if n > 0 {
      NamePassUpdates(src, tgt, n - 1);
    }
  }

  /** The filter keeps exactly the fields whose name is not done. */
  lemma {:induction false} WithoutNamesMembers(fs: seq<Field>, done: seq<string>)
    ensures forall f :: f in WithoutNames(fs, done) <==> f in fs && f.name !in done
  {
    if |fs| > 0 {
      WithoutNamesMembers(fs[1..], done);
      assert fs == [fs[0]] + fs[1..];
    }
  }

  /** The filter distributes over concatenation, so it keeps the order and
      the repetitions of the fields it lets through. */
  lemma {:induction false} WithoutNamesAppend(a: seq<Field>, b: seq<Field>, done: seq<string>)
    ensures WithoutNames(a + b, done) == WithoutNames(a, done) + WithoutNames(b, done)
  {
    if |a| > 0 {
      WithoutNamesAppend(a[1..], b, done);
      assert (a + b)[0] == a[0];
      assert (a + b)[1..] == a[1..] + b;
    } else {
      assert a + b == b;
    }
  }

  lemma {:induction false} WithoutNamesCongruent(fs: seq<Field>, d1: seq<string>, d2: seq<string>)
    requires forall i :: 0 <= i < |fs| ==> (fs[i].name in d1 <==> fs[i].name in d2)
    ensures WithoutNames(fs, d1) == WithoutNames(fs, d2)
  {
    if |fs| > 0 {
      assert fs[0].name in d1 <==> fs[0].name in d2;
      forall i | 0 <= i < |fs[1..]| ensures fs[1..][i].name in d1 <==> fs[1..][i].name in d2 {
        assert fs[1..][i] == fs[i + 1];
      }
      WithoutNamesCongruent(fs[1..], d1, d2);
    }
  }

  lemma {:induction false} NamesHasName(fs: seq<Field>, x: string)
    ensures x in Names(fs) <==> HasName(fs, x)
  {
    if HasName(fs, x) {
      var i :| 0 <= i < |fs| && fs[i].name == x;
      assert Names(fs)[i] == x;
    }
  }

  /** The fields the positional pass works on are the source fields whose
      name no target has and the target fields whose name no source has. */
  lemma {:induction false} LeftoversAreUnmatched(src: seq<Field>, tgt: seq<Field>)
    requires NamePass(src, tgt, |src|).Ok?
    ensures var np := NamePass(src, tgt, |src|).value;
      && WithoutNames(src, np.done) == LeftoverSource(src, tgt)
      && WithoutNames(tgt, np.done) == LeftoverTarget(src, tgt)
  {
    var np := NamePass(src, tgt, |src|).value;
    NamePassDone(src, tgt, |src|);
    forall i | 0 <= i < |src| ensures src[i].name in np.done <==> src[i].name in Names(tgt) {
      NamesHasName(tgt, src[i].name);
    }
    WithoutNamesCongruent(src, np.done, Names(tgt));
    forall i | 0 <= i < |tgt| ensures tgt[i].name in np.done <==> tgt[i].name in Names(src) {
      NamesHasName(src, tgt[i].name);
      assert HasName(tgt, tgt[i].name);
      if tgt[i].name in Names(src) {
        var k :| 0 <= k < |src| && src[k].name == tgt[i].name;
      }
    }
    WithoutNamesCongruent(tgt, np.done, Names(src));
  }

  // ---------------------------------------------------------------------
  // Properties of the positional pass

  /** Leftover source `i` meets leftover target `i` alone: they are compared
      without error; equal options give a rename, unequal ones an add of the
      target and a remove of the source; a source past the last target a
      remove. */
  lemma {:induction false} PositionalAt(ls: seq<Field>, lt: seq<Field>, n: nat, i: nat)
    requires i < n <= |ls| && PositionalPass(ls, lt, n).Ok?
    ensures var b := PositionalPass(ls, lt, n).value;
      && (i < |lt| ==> FieldOptionsEqual(ls[i], lt[i]).Ok?)
      && (i < |lt| && FieldOptionsEqual(ls[i], lt[i]) == Ok(true) ==> Pair(ls[i], lt[i]) in b.renames)
      && (i < |lt| && FieldOptionsEqual(ls[i], lt[i]) == Ok(false) ==> lt[i] in b.adds && ls[i] in b.removes)
      && (|lt| <= i ==> ls[i] in b.removes)
  {
    if i < n - 1 {
      PositionalAt(ls, lt, n - 1, i);
    }
  }

  /** Nothing but those outcomes is in the buckets. */
  lemma {:induction false} PositionalOnly(ls: seq<Field>, lt: seq<Field>, n: nat)
    requires n <= |ls| && PositionalPass(ls, lt, n).Ok?
    ensures var b := PositionalPass(ls, lt, n).value;
      && (forall p :: p in b.renames ==>
            exists i :: 0 <= i < n && i < |lt| && p == Pair(ls[i], lt[i]) && FieldOptionsEqual(ls[i], lt[i]) == Ok(true))
      && (forall f :: f in b.adds ==>
            exists i :: 0 <= i < n && i < |lt| && f == lt[i] && FieldOptionsEqual(ls[i], lt[i]) == Ok(false))
      && (forall f :: f in b.removes ==> exists i :: 0 <= i < n && f == ls[i])
  {
    if n > 0 {
      PositionalOnly(ls, lt, n - 1);
    }
  }

  /** Each leftover source is renamed or removed, and each leftover target
      that has a source at its position is renamed or added. */
  lemma {:induction false} PositionalCounts(ls: seq<Field>, lt: seq<Field>, n: nat)
    requires n <= |ls| && PositionalPass(ls, lt, n).Ok?
    ensures var b := PositionalPass(ls, lt, n).value;
      && |b.renames| + |b.removes| == n
      && |b.adds| + |b.renames| == (if n < |lt| then n else |lt|)
  {
    if n > 0 {
      PositionalCounts(ls, lt, n - 1);
    }
  }

  // ---------------------------------------------------------------------
  // Properties of the whole diff

  /** A field whose options hold no `null` and whose keys are unique. */
  predicate FieldWellFormed(f: Field) {
    WellFormed(Obj(f.options)) && NullFree(Obj(f.options))
  }

  lemma {:induction false} NamePassOfIdentical(fs: seq<Field>, n: nat)
    requires n <= |fs| && UniqueNames(fs)
    requires forall i :: 0 <= i < |fs| ==> FieldWellFormed(fs[i])
    ensures NamePass(fs, fs, n) == Ok(NameMatches([], Names(fs[..n])))
  {
    if n > 0 {
      NamePassOfIdentical(fs, n - 1);
      FindByNameUnique(fs, n - 1);
      FieldOptionsEqualReflexive(fs[n - 1]);
      NamePassMatched(fs, fs, n - 1, NameMatches([], Names(fs[..n - 1])), fs[n - 1]);
      NamesOfPrefix(fs, n - 1);
    }
  }

  lemma {:induction false} NamesOfPrefix(fs: seq<Field>, k: nat)
    requires k < |fs|
    ensures Names(fs[..k + 1]) == Names(fs[..k]) + [fs[k].name]
  {
    assert fs[..k + 1] == fs[..k] + [fs[k]];
    NamesAppend(fs[..k], fs[k]);
  }

  lemma {:induction false} NamesAppend(fs: seq<Field>, f: Field)
    ensures Names(fs + [f]) == Names(fs) + [f.name]
  {
  }

  lemma {:induction false} WithoutAllNames(fs: seq<Field>, done: seq<string>)
    requires forall i :: 0 <= i < |fs| ==> fs[i].name in done
    ensures WithoutNames(fs, done) == []
  {
    if |fs| > 0 {
      forall i | 0 <= i < |fs[1..]| ensures fs[1..][i].name in done {
        assert fs[1..][i] == fs[i + 1];
      }
      WithoutAllNames(fs[1..], done);
    }
  }

  /** Diffing a field list against itself finds nothing to add, update,
      rename or remove. */
  lemma {:induction false} DiffOfIdenticalListsIsEmpty(fs: seq<Field>)
    requires UniqueNames(fs)
    requires forall i :: 0 <= i < |fs| ==> FieldWellFormed(fs[i])
    ensures DiffFields(fs, fs) == Ok(Diff([], [], [], []))
  {
    NamePassOfIdentical(fs, |fs|);
    assert fs[..|fs|] == fs;
    forall i | 0 <= i < |fs| ensures fs[i].name in Names(fs) {
      assert Names(fs)[i] == fs[i].name;
    }
    WithoutAllNames(fs, Names(fs));
    assert NamePass(fs, fs, |fs|) == Ok(NameMatches([], Names(fs)));
    assert WithoutNames(fs, Names(fs)) == [];
    var ls := WithoutNames(fs, Names(fs));
    assert PositionalPass(ls, ls, |ls|) == Ok(Buckets([], [], []));
    assert TailAdds(ls, ls) == [];
    assert DiffFields(fs, fs) == Ok(Diff([] + TailAdds(ls, ls), [], [], []));
    assert [] + TailAdds(ls, ls) == [];
    assert DiffFields(fs, fs) == Ok(Diff([], [], [], []));
  }

  /** A source field whose name a target field has is an update exactly when
      the two compare unequal, and is never added, renamed or removed. */
  lemma {:induction false} NameMatchedFieldIsUpdateOrNothing(src: seq<Field>, tgt: seq<Field>, s: Field, t: Field)
    requires DiffFields(src, tgt).Ok?
    requires s in src && FindByName(tgt, s.name) == Some(t)
    ensures var d := DiffFields(src, tgt).value;
      && FieldOptionsEqual(s, t).Ok?
      && (Pair(s, t) in d.updateField <==> FieldOptionsEqual(s, t) == Ok(false))
      && s !in d.removeField
      && t !in d.addField
      && forall p :: p in d.renameField ==> p.source != s && p.target != t
  {
    var k :| 0 <= k < |src| && src[k] == s;
    FindByNameFound(tgt, s.name);
    NamePassAt(src, tgt, |src|, k);
    NamePassUpdates(src, tgt, |src|);
    var np := NamePass(src, tgt, |src|).value;
    assert s.name in np.done by {
      NamePassDone(src, tgt, |src|);
    }
    var ls := WithoutNames(src, np.done);
    var lt := WithoutNames(tgt, np.done);
    WithoutNamesMembers(src, np.done);
    WithoutNamesMembers(tgt, np.done);
    assert s !in ls && t !in lt;
    DiffWithinLeftovers(src, tgt, np, ls, lt);
  }

  /** Whatever the positional pass puts in the buckets comes from the leftovers. */
  lemma {:induction false} DiffWithinLeftovers(src: seq<Field>, tgt: seq<Field>, np: NameMatches, ls: seq<Field>, lt: seq<Field>)
    requires DiffFields(src, tgt).Ok? && NamePass(src, tgt, |src|) == Ok(np)
    requires ls == WithoutNames(src, np.done) && lt == WithoutNames(tgt, np.done)
    ensures var d := DiffFields(src, tgt).value;
      && (forall p :: p in d.renameField ==> p.source in ls && p.target in lt)
      && (forall f :: f in d.addField ==> f in lt)
      && (forall f :: f in d.removeField ==> f in ls)
  {
    PositionalOnly(ls, lt, |ls|);
    var b := PositionalPass(ls, lt, |ls|).value;
    forall f | f in TailAdds(ls, lt) ensures f in lt {
    }
  }

  /** After the name pass, leftover source `i` is judged against leftover
      target `i` alone: equal options make a rename, different options an add
      of the target and a remove of the source, and a missing target a remove. */
  lemma {:induction false} LeftoverFieldsPairedByPosition(src: seq<Field>, tgt: seq<Field>, i: nat)
    requires DiffFields(src, tgt).Ok?
    requires i < |LeftoverSource(src, tgt)|
    ensures var d := DiffFields(src, tgt).value;
      var ls, lt := LeftoverSource(src, tgt), LeftoverTarget(src, tgt);
      && (i < |lt| ==> FieldOptionsEqual(ls[i], lt[i]).Ok?)
      && (i < |lt| && FieldOptionsEqual(ls[i], lt[i]) == Ok(true) ==> Pair(ls[i], lt[i]) in d.renameField)
      && (i < |lt| && FieldOptionsEqual(ls[i], lt[i]) == Ok(false) ==> lt[i] in d.addField && ls[i] in d.removeField)
      && (|lt| <= i ==> ls[i] in d.removeField)
  {
    LeftoversAreUnmatched(src, tgt);
    PositionalAt(LeftoverSource(src, tgt), LeftoverTarget(src, tgt), |LeftoverSource(src, tgt)|, i);
  }

  /** Every leftover source is renamed or removed, once; every leftover target
      is renamed or added, once; and the targets past the last leftover source
      close the add bucket, in order. */
  lemma {:induction false} LeftoverFieldsAccountedFor(src: seq<Field>, tgt: seq<Field>)
    requires DiffFields(src, tgt).Ok?
    ensures var d := DiffFields(src, tgt).value;
      var ls, lt := LeftoverSource(src, tgt), LeftoverTarget(src, tgt);
      && |d.renameField| + |d.removeField| == |ls|
      && |d.addField| + |d.renameField| == |lt|
      && (|lt| > |ls| ==> d.addField[|d.addField| - (|lt| - |ls|)..] == lt[|ls|..])
  {
    LeftoversAreUnmatched(src, tgt);
    var ls, lt := LeftoverSource(src, tgt), LeftoverTarget(src, tgt);
    PositionalCounts(ls, lt, |ls|);
    var b := PositionalPass(ls, lt, |ls|).value;
    assert DiffFields(src, tgt).value.addField == b.adds + TailAdds(ls, lt);
  }

  /** The diff throws only when an options comparison meets `null`: without
      `null` in any options it always succeeds. */
  lemma {:induction false} DiffDefinedWithoutNull(src: seq<Field>, tgt: seq<Field>)
    requires forall i :: 0 <= i < |src| ==> NullFree(Obj(src[i].options))
    requires forall i :: 0 <= i < |tgt| ==> NullFree(Obj(tgt[i].options))
    ensures DiffFields(src, tgt).Ok?
  {
    NamePassDefined(src, tgt, |src|);
    var np := NamePass(src, tgt, |src|).value;
    var ls := WithoutNames(src, np.done);
    var lt := WithoutNames(tgt, np.done);
    WithoutNamesMembers(src, np.done);
    WithoutNamesMembers(tgt, np.done);
    forall i | 0 <= i < |ls| ensures NullFree(Obj(ls[i].options)) {
      assert ls[i] in src;
    }
    forall i | 0 <= i < |lt| ensures NullFree(Obj(lt[i].options)) {
      assert lt[i] in tgt;
    }
    PositionalDefined(ls, lt, |ls|);
  }

  lemma {:induction false} NamePassDefined(src: seq<Field>, tgt: seq<Field>, n: nat)
    requires n <= |src|
    requires forall i :: 0 <= i < |src| ==> NullFree(Obj(src[i].options))
    requires forall i :: 0 <= i < |tgt| ==> NullFree(Obj(tgt[i].options))
    ensures NamePass(src, tgt, n).Ok?
  {
    if n > 0 {
      NamePassDefined(src, tgt, n - 1);
      var t := FindByName(tgt, src[n - 1].name);
      if t.Some? {
        FindByNameFound(tgt, src[n - 1].name);
        var j :| 0 <= j < |tgt| && tgt[j] == t.value;
        assert NullFree(Obj(t.value.options));
        FieldOptionsEqualDefinedWithoutNull(src[n - 1], t.value);
      }
    }
  }

  lemma {:induction false} PositionalDefined(ls: seq<Field>, lt: seq<Field>, n: nat)
    requires n <= |ls|
    requires forall i :: 0 <= i < |ls| ==> NullFree(Obj(ls[i].options))
    requires forall i :: 0 <= i < |lt| ==> NullFree(Obj(lt[i].options))
    ensures PositionalPass(ls, lt, n).Ok?
  {
    if n > 0 {
      PositionalDefined(ls, lt, n - 1);
      if n - 1 < |lt| {
        FieldOptionsEqualDefinedWithoutNull(ls[n - 1], lt[n - 1]);
      }
    }
  }
}
