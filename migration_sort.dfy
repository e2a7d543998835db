/** The ordering of `_sortMigrations` in lib/migration_execution.js: lists
    before fields before associations, and within each kind creates before
    updates before renames before removes. `Array.prototype.sort` is
    stable, so records of the same kind and operation keep their order. */
module MigrationSort {
  import opened Schema

  /** `objects.indexOf(m.object)` for `["list", "field", "association"]`. */
  function ObjectRank(m: Migration): int {
    match m
    case ListMigration(_, _, _, _) => 0
    case FieldMigration(_, _, _, _, _, _) => 1
    case AssociationMigration(_, _, _, _, _) => 2
  }

  /** `ops.indexOf(m.op)` for `["create", "update", "rename", "remove"]`. */
  function OpRank(op: Op): int {
    match op
    case Create => 0
    case Update => 1
    case Rename => 2
    case Remove => 3
  }

  /** The comparator passed to `migrations.sort`. */
  function Compare(m1: Migration, m2: Migration): int {
    if ObjectRank(m1) < ObjectRank(m2) then -1
    else if ObjectRank(m1) > ObjectRank(m2) then 1
    else if OpRank(m1.op) < OpRank(m2.op) then -1
    else if OpRank(m1.op) > OpRank(m2.op) then 1
    else 0
  }

  /** The position of a record's kind and operation in the order. */
  function Key(m: Migration): int {
    4 * ObjectRank(m) + OpRank(m.op)
  }

  /** The comparator orders records exactly by `Key`: a total preorder, so a
      stable sort by it has one result. */
  lemma {:induction false} CompareIsKeyOrder(m1: Migration, m2: Migration)
    ensures Compare(m1, m2) < 0 <==> Key(m1) < Key(m2)
    ensures Compare(m1, m2) == 0 <==> Key(m1) == Key(m2)
    ensures Compare(m1, m2) > 0 <==> Key(m1) > Key(m2)
    ensures Compare(m1, m2) == -Compare(m2, m1)
  {
  }

  predicate Sorted(s: seq<Migration>) {
    forall i, j :: 0 <= i < j < |s| ==> Compare(s[i], s[j]) <= 0
  }

  /** Inserts `x` into a sorted sequence after every record that does not
      come after it. */
  function Insert(t: seq<Migration>, x: Migration): seq<Migration> {
    if |t| == 0 then [x]
    else if Key(t[|t| - 1]) <= Key(x) then t + [x]
    else Insert(t[..|t| - 1], x) + [t[|t| - 1]]
  }

  /** The stable sort of `s` by the comparator. */
  function SortSpec(s: seq<Migration>): seq<Migration> {
    if |s| == 0 then [] else Insert(SortSpec(s[..|s| - 1]), s[|s| - 1])
  }

  /** The records of `s` with key `k`, in order. */
  function WithKey(s: seq<Migration>, k: int): seq<Migration> {
    if |s| == 0 then []
    else WithKey(s[..|s| - 1], k) + (if Key(s[|s| - 1]) == k then [s[|s| - 1]] else [])
  }

  /** `_sortMigrations(migrations)`, in place. */
  method SortMigrations(a: array<Migration>)
    modifies a
    ensures a[..] == SortSpec(old(a[..]))
  {
    var i := 0;
    while i < a.Length
      invariant 0 <= i <= a.Length
      invariant a[..i] == SortSpec(old(a[..])[..i])
      invariant forall k :: i <= k < a.Length ==> a[k] == old(a[k])
    {
      InsertAt(a, i);
      assert old(a[..])[..i + 1][..i] == old(a[..])[..i];
      i := i + 1;
    }
    assert a[..] == a[..a.Length];
    assert old(a[..])[..a.Length] == old(a[..]);
  }

  /** Moves `a[i]` left past the records of `a[..i]` that come after it. */
  method InsertAt(a: array<Migration>, i: int)
    requires 0 <= i < a.Length
    modifies a
    ensures a[..i + 1] == Insert(old(a[..i]), old(a[i]))
    ensures forall k :: i < k < a.Length ==> a[k] == old(a[k])
  {
    var x := a[i];
    var j := ShiftLarger(a, i, x);
    a[j] := x;
    InsertSplit(old(a[..i]), x, j);
    Assemble(a[..i + 1], old(a[..i]), x, j);
  }

  /** The inner loop of the insertion: shifts the records of `a[..i]` that
      come after `x` one place right and returns the gap left for `x`. */
  method ShiftLarger(a: array<Migration>, i: int, x: Migration) returns (j: int)
    requires 0 <= i < a.Length
    modifies a
    ensures 0 <= j <= i
    ensures forall k :: 0 <= k < j ==> a[k] == old(a[k])
    ensures forall k :: j < k <= i ==> a[k] == old(a[k - 1])
    ensures forall k :: i < k < a.Length ==> a[k] == old(a[k])
    ensures forall k :: j <= k < i ==> Key(old(a[k])) > Key(x)
    ensures j > 0 ==> Key(old(a[j - 1])) <= Key(x)
  {
    j := i;
    while j > 0 && Key(a[j - 1]) > Key(x)
      invariant 0 <= j <= i
      invariant forall k :: 0 <= k < j ==> a[k] == old(a[k])
      invariant forall k :: j < k <= i ==> a[k] == old(a[k - 1])
      invariant forall k :: i < k < a.Length ==> a[k] == old(a[k])
      invariant forall k :: j <= k < i ==> Key(old(a[k])) > Key(x)
    {
      a[j] := a[j - 1];
      j := j - 1;
    }
  }

  /** Inserting `x` puts it after the last record that does not come after it. */
  lemma {:induction false} InsertSplit(t: seq<Migration>, x: Migration, j: int)
    requires 0 <= j <= |t|
    requires forall k :: j <= k < |t| ==> Key(t[k]) > Key(x)
    requires j > 0 ==> Key(t[j - 1]) <= Key(x)
    ensures Insert(t, x) == t[..j] + [x] + t[j..]
    decreases |t|
  {
    if |t| == j {
      assert t[..j] == t && t[j..] == [];
    } else {
      var init := t[..|t| - 1];
      assert init[..j] == t[..j];
      InsertSplit(init, x, j);
      assert t[j..] == init[j..] + [t[|t| - 1]];
    }
  }

  lemma {:induction false} Assemble(s: seq<Migration>, t: seq<Migration>, x: Migration, j: int)
    requires 0 <= j <= |t| && |s| == |t| + 1
    requires forall k :: 0 <= k < j ==> s[k] == t[k]
    requires s[j] == x
    requires forall k :: j < k < |s| ==> s[k] == t[k - 1]
    ensures s == t[..j] + [x] + t[j..]
  {
  }

  // ---------------------------------------------------------------------
  // Properties of the order

  lemma {:induction false} InsertMultiset(t: seq<Migration>, x: Migration)
    ensures multiset(Insert(t, x)) == multiset(t) + multiset{x}
  {
    if |t| > 0 && Key(t[|t| - 1]) > Key(x) {
      InsertMultiset(t[..|t| - 1], x);
      assert t == t[..|t| - 1] + [t[|t| - 1]];
    }
  }

  lemma MultisetOfInitLast(s: seq<Migration>)
    requires |s| > 0
    ensures multiset(s) == multiset(s[..|s| - 1]) + multiset{s[|s| - 1]}
  {
    assert s == s[..|s| - 1] + [s[|s| - 1]];
  }

  /** Sorting only reorders the records. */
  lemma {:induction false} SortSpecIsPermutation(s: seq<Migration>)
    ensures multiset(SortSpec(s)) == multiset(s)
  {
    if |s| == 0 {
      assert s == [];
    } else {
      var init, last := s[..|s| - 1], s[|s| - 1];
      SortSpecIsPermutation(init);
      InsertMultiset(SortSpec(init), last);
      MultisetOfInitLast(s);
    }
  }

  predicate KeySorted(s: seq<Migration>) {
    forall i, j :: 0 <= i < j < |s| ==> Key(s[i]) <= Key(s[j])
  }

  lemma {:induction false} InsertSorted(t: seq<Migration>, x: Migration)
    requires KeySorted(t)
    ensures KeySorted(Insert(t, x))
  {
    if |t| > 0 && Key(t[|t| - 1]) > Key(x) {
      var init := t[..|t| - 1];
      var last := t[|t| - 1];
      InsertSorted(init, x);
      InsertMultiset(init, x);
      var r := Insert(init, x);
      forall i | 0 <= i < |r| ensures Key(r[i]) <= Key(last) {
        assert r[i] in multiset(r);
        assert r[i] in multiset(init) || r[i] == x;
        if r[i] != x {
          assert r[i] in init;
        }
      }
    }
  }

  /** Sorting leaves every record after the records that come before it. */
  lemma {:induction false} SortSpecIsSorted(s: seq<Migration>)
    ensures Sorted(SortSpec(s))
  {
    SortSpecKeySorted(s);
    var r := SortSpec(s);
    forall i, j | 0 <= i < j < |r| ensures Compare(r[i], r[j]) <= 0 {
      CompareIsKeyOrder(r[i], r[j]);
    }
  }

  lemma {:induction false} SortSpecKeySorted(s: seq<Migration>)
    ensures KeySorted(SortSpec(s))
  {
    if |s| > 0 {
      SortSpecKeySorted(s[..|s| - 1]);
      InsertSorted(SortSpec(s[..|s| - 1]), s[|s| - 1]);
    }
  }

  lemma {:induction false} WithKeyAppend(s: seq<Migration>, t: seq<Migration>, k: int)
    ensures WithKey(s + t, k) == WithKey(s, k) + WithKey(t, k)
  {
    if |t| == 0 {
      assert s + t == s;
    } else {
      WithKeyAppend(s, t[..|t| - 1], k);
      assert (s + t)[..|s + t| - 1] == s + t[..|t| - 1];
    }
  }

  lemma {:induction false} WithKeySnoc(s: seq<Migration>, y: Migration, k: int)
    ensures WithKey(s + [y], k) == WithKey(s, k) + (if Key(y) == k then [y] else [])
  {
    assert (s + [y])[..|s|] == s;
  }

  lemma {:induction false} SwapEmpty(w: seq<Migration>, xs: seq<Migration>, ls: seq<Migration>)
    requires xs == [] || ls == []
    ensures w + xs + ls == w + ls + xs
  {
    if xs == [] {
      assert w + xs == w && ls + xs == ls;
    } else {
      assert w + ls == w && xs + ls == xs;
    }
  }

  lemma {:induction false} InsertStable(t: seq<Migration>, x: Migration, k: int)
    ensures WithKey(Insert(t, x), k) == WithKey(t, k) + (if Key(x) == k then [x] else [])
  {
    if |t| == 0 {
      WithKeySnoc([], x, k);
    } else if Key(t[|t| - 1]) <= Key(x) {
      WithKeySnoc(t, x, k);
    } else {
      var init := t[..|t| - 1];
      var last := t[|t| - 1];
      var r := Insert(init, x);
      InsertStable(init, x, k);
      WithKeySnoc(r, last, k);
      assert t == init + [last];
      WithKeySnoc(init, last, k);
      SwapEmpty(WithKey(init, k), if Key(x) == k then [x] else [], if Key(last) == k then [last] else []);
    }
  }

  /** Sorting is stable: the records of one kind and operation keep their
      relative order. */
  lemma {:induction false} SortSpecIsStable(s: seq<Migration>, k: int)
    ensures WithKey(SortSpec(s), k) == WithKey(s, k)
  {
    if |s| > 0 {
      SortSpecIsStable(s[..|s| - 1], k);
      InsertStable(SortSpec(s[..|s| - 1]), s[|s| - 1], k);
    }
  }

  /** After sorting, every list record precedes every field record, which
      precedes every association record; within a kind, operations follow
      create, update, rename, remove. */
  lemma {:induction false} SortedRanks(s: seq<Migration>, i: nat, j: nat)
    requires i < j < |SortSpec(s)|
    ensures var r := SortSpec(s);
      && ObjectRank(r[i]) <= ObjectRank(r[j])
      && (ObjectRank(r[i]) == ObjectRank(r[j]) ==> OpRank(r[i].op) <= OpRank(r[j].op))
  {
    SortSpecKeySorted(s);
  }
}
