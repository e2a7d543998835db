/** Small worked cases of the engine: the equality quirks, the three kinds
    of field change the differ tells apart, and a referenced pair of
    associations that gives one foreign key. */
module Scenarios {
  import opened Wrappers
  import opened JsValues
  import opened Schema
  import opened OptionsEquality
  import opened FieldDiff
  import opened MigrationSort
  import opened MigrationExecution

  /** `{a: null}` against itself: `typeof null` is "object", so the comparison
      recurses and `Object.keys(null)` throws. */
  lemma NullOptionThrows()
    ensures ObjectsEqual(Obj([("a", Null)]), Obj([("a", Null)])) == Err(NullHasNoKeys)
  {
    var o := Obj([("a", Null)]);
    assert Get(o.entries, "a") == Null;
    assert ScanKeys(o, o, 0) == ObjectsEqual(Null, Null);
  }

  /** The first nested object decides: keys after it are never compared. */
  lemma KeysAfterNestedObjectIgnored()
    ensures ObjectsEqual(Obj([("a", Obj([])), ("b", Num(1))]), Obj([("a", Obj([])), ("b", Num(2))])) == Ok(true)
  {
    var o1 := Obj([("a", Obj([])), ("b", Num(1))]);
    var o2 := Obj([("a", Obj([])), ("b", Num(2))]);
    assert Get(o2.entries, "a") == Obj([]);
    assert ObjectsEqual(Obj([]), Obj([])) == Ok(true);
    assert ScanKeys(o1, o2, 0) == Ok(true);
  }

  /** A key set to `undefined` matches a key the other object lacks. */
  lemma UndefinedMatchesMissingKey()
    ensures ObjectsEqual(Obj([("a", Undefined)]), Obj([("b", Num(1))])) == Ok(true)
  {
    var o1 := Obj([("a", Undefined)]);
    var o2 := Obj([("b", Num(1))]);
    assert Get(o2.entries, "a") == Undefined;
    assert ScanKeys(o1, o2, 1) == Ok(true);
    assert ScanKeys(o1, o2, 0) == Ok(true);
  }

  const TextA := Field("Text", "a", [])
  const TextB := Field("Text", "b", [])
  const TextC := Field("Text", "c", [])
  const IntegerB := Field("Integer", "b", [])

  /** A field at the same position with a new name and the same type and
      options is a rename. */
  lemma SamePlaceNewNameIsRename()
    ensures DiffFields([TextA], [TextB]) == Ok(Diff([], [], [Pair(TextA, TextB)], []))
  {
    assert FindByName([TextB], "a") == None;
    assert NamePass([TextA], [TextB], 1) == Ok(NameMatches([], []));
    assert WithoutNames([TextA], []) == [TextA];
    assert WithoutNames([TextB], []) == [TextB];
    assert FieldOptionsEqual(TextA, TextB) == Ok(true) by {
      assert ScanKeys(Obj([]), Obj([]), 0) == Ok(true);
    }
    assert PositionalPass([TextA], [TextB], 0) == Ok(Buckets([], [], []));
    assert [] + [Pair(TextA, TextB)] == [Pair(TextA, TextB)];
    assert PositionalPass([TextA], [TextB], 1) == Ok(Buckets([], [Pair(TextA, TextB)], []));
    assert TailAdds([TextA], [TextB]) == [];
    var none: seq<Field> := [];
    assert none + none == none;
  }

  /** A field at the same position with a new name and another type is
      removed and the new one added. */
  lemma SamePlaceNewTypeIsRemoveAndAdd()
    ensures DiffFields([TextA], [IntegerB]) == Ok(Diff([IntegerB], [], [], [TextA]))
  {
    assert FindByName([IntegerB], "a") == None;
    assert NamePass([TextA], [IntegerB], 1) == Ok(NameMatches([], []));
    assert WithoutNames([TextA], []) == [TextA];
    assert WithoutNames([IntegerB], []) == [IntegerB];
    assert FieldOptionsEqual(TextA, IntegerB) == Ok(false);
    assert PositionalPass([TextA], [IntegerB], 0) == Ok(Buckets([], [], []));
    assert [] + [IntegerB] == [IntegerB] && [] + [TextA] == [TextA];
    assert PositionalPass([TextA], [IntegerB], 1) == Ok(Buckets([IntegerB], [], [TextA]));
    assert TailAdds([TextA], [IntegerB]) == [];
  }

  /** A new field after the existing ones is an add; the unchanged fields
      produce nothing. */
  lemma NewTrailingFieldIsAdd()
    ensures DiffFields([TextA, TextB], [TextA, TextB, TextC]) == Ok(Diff([TextC], [], [], []))
  {
    TrailingNamePass();
    TrailingLeftovers();
    var none: seq<Field> := [];
    assert PositionalPass(none, [TextC], 0) == Ok(Buckets([], [], []));
    assert TailAdds(none, [TextC]) == [TextC];
    assert none + [TextC] == [TextC];
  }

  /** Both unchanged fields match by name with equal options. */
  lemma TrailingNamePass()
    ensures NamePass([TextA, TextB], [TextA, TextB, TextC], 2) == Ok(NameMatches([], ["a", "b"]))
  {
    var src, tgt := [TextA, TextB], [TextA, TextB, TextC];
    assert FieldOptionsEqual(TextA, TextA) == Ok(true) by {
      assert ScanKeys(Obj([]), Obj([]), 0) == Ok(true);
    }
    assert FindByName(tgt, "a") == Some(TextA);
    assert tgt[1..] == [TextB, TextC];
    assert FindByName(tgt[1..], "b") == Some(TextB);
    assert FindByName(tgt, "b") == Some(TextB);
    assert NamePass(src, tgt, 0) == Ok(NameMatches([], []));
    assert [] + ["a"] == ["a"] && ["a"] + ["b"] == ["a", "b"];
    assert NamePass(src, tgt, 1) == Ok(NameMatches([], ["a"]));
  }

  /** After the name pass only the new field is left. */
  lemma TrailingLeftovers()
    ensures WithoutNames([TextA, TextB], ["a", "b"]) == []
    ensures WithoutNames([TextA, TextB, TextC], ["a", "b"]) == [TextC]
  {
    var src, tgt := [TextA, TextB], [TextA, TextB, TextC];
    assert WithoutNames(src[1..], ["a", "b"]) == [];
    assert WithoutNames(tgt[2..], ["a", "b"]) == [TextC];
    assert WithoutNames(tgt[1..], ["a", "b"]) == [TextC];
  }

  /** The saved snapshot goes through `JSON.stringify` and `JSON.parse`,
      which drop a property whose value is `undefined`. A decimal field with
      `knexOptions: {scale: undefined}` is read back with `knexOptions: {}`,
      and the next build diffs that field as an update. */
  lemma RoundTripLostUndefinedIsUpdate()
    ensures
      var saved := Field("Decimal", "price", [("knexOptions", Obj([]))]);
      var current := Field("Decimal", "price", [("knexOptions", Obj([("scale", Undefined)]))]);
      DiffFields([saved], [current]) == Ok(Diff([], [Pair(saved, current)], [], []))
  {
    var saved := Field("Decimal", "price", [("knexOptions", Obj([]))]);
    var current := Field("Decimal", "price", [("knexOptions", Obj([("scale", Undefined)]))]);
    assert FindByName([current], "price") == Some(current);
    assert Get(current.options, "knexOptions") == Obj([("scale", Undefined)]);
    assert FieldOptionsEqual(saved, current) == Ok(false) by {
      assert ObjectsEqual(Obj([]), Obj([("scale", Undefined)])) == Ok(false);
      assert ScanKeys(Obj(saved.options), Obj(current.options), 0) == Ok(false);
    }
    assert [saved][0] == saved;
    assert NamePass([saved], [current], 0) == Ok(NameMatches([], []));
    assert NamePass([saved], [current], 1) == Ok(NameMatches([] + [Pair(saved, current)], [] + ["price"]));
    assert WithoutNames([saved], ["price"]) == [];
    assert WithoutNames([current], ["price"]) == [];
    assert PositionalPass([], [], 0) == Ok(Buckets([], [], []));
    assert TailAdds([], []) == [];
    var np := NameMatches([Pair(saved, current)], ["price"]);
    assert [] + [Pair(saved, current)] == np.updates && [] + ["price"] == np.done;
    assert NamePass([saved], [current], |[saved]|) == Ok(np);
    assert DiffFields([saved], [current]) == Ok(Diff([] + [], np.updates, [], []));
  }

  /** `User.posts` (1:N) names `Post.author`, but the batch holds no record
      for `Post.author`, as when the posts list is already cached: the
      step reads `takenCare` of an undefined entry and throws, before any
      statement and without saving the snapshot. */
  lemma LoneReferencedAssociationThrows(adapters: seq<ListAdapter>, schema: seq<ListSchema>)
    ensures
      var posts := AssociationMigration(Create, "User", OneToMany, "posts", Target("Post", Some("author")));
      var r := ApplySpec(adapters, "InternalSchema", Db([], {}), [posts], schema);
      r.failure == Some(MissingPartner("Post__author")) && r.db.ops == []
  {
    var posts := AssociationMigration(Create, "User", OneToMany, "posts", Target("Post", Some("author")));
    var ms := [posts];
    assert ms[..0] == [];
    assert SortSpec(ms) == ms;
    assert "Post" + "__" + "author" == "Post__author";
    assert "User" + "__" + "posts" == "User__posts";
    assert IsReferenced(posts.target);
    assert RefKey(posts) == Some("User__posts");
    assert ReferencedState(ms[..0]) == map[];
    assert ms[|ms| - 1] == posts;
    var refs := ReferencedState(ms);
    assert refs == map["User__posts" := RefEntry(false, "User", "posts")];
    assert "Post__author" !in refs;
    var db0 := Db([], {});
    assert Step(adapters, db0, refs, posts) == StepResult(db0, refs, Some(MissingPartner("Post__author")));
    assert Run(adapters, db0, refs, ms, 1) == StepResult(db0, refs, Some(MissingPartner("Post__author")));
  }

  /** `Post.author` (N:1) and `User.posts` (1:N) name each other: applying
      both creates one foreign key, on the posts table, and then saves the
      snapshot. */
  lemma ReferencedPairGivesOneForeignKey(adapters: seq<ListAdapter>, schema: seq<ListSchema>)
    ensures
      var author := AssociationMigration(Create, "Post", ManyToOne, "author", Target("User", Some("posts")));
      var posts := AssociationMigration(Create, "User", OneToMany, "posts", Target("Post", Some("author")));
      var r := ApplySpec(adapters, "InternalSchema", Db([], {}), [author, posts], schema);
      && r.failure == None
      && r.db.ops == [AlterTable("Post", ForeignKey("author", "User")), InsertSnapshot("InternalSchema", schema)]
  {
    var author := AssociationMigration(Create, "Post", ManyToOne, "author", Target("User", Some("posts")));
    var posts := AssociationMigration(Create, "User", OneToMany, "posts", Target("Post", Some("author")));
    var ms := [author, posts];
    assert [author][..0] == [];
    assert ms[..1] == [author];
    assert SortSpec([author]) == [author];
    assert SortSpec(ms) == ms;
    assert "Post" + "__" + "author" == "Post__author";
    assert "User" + "__" + "posts" == "User__posts";
    assert IsReferenced(author.target) && IsReferenced(posts.target);
    assert RefKey(author) == Some("Post__author");
    assert RefKey(posts) == Some("User__posts");
    assert ReferencedState([]) == map[];
    assert ReferencedState(ms[..1]) == map["Post__author" := RefEntry(false, "Post", "author")];
    var refs := ReferencedState(ms);
    assert refs == map["Post__author" := RefEntry(false, "Post", "author"), "User__posts" := RefEntry(false, "User", "posts")];
    var db0 := Db([], {});
    var s1 := Step(adapters, db0, refs, author);
    var fk := AlterTable("Post", ForeignKey("author", "User"));
    assert s1 == StepResult(Db([fk], {}), refs["Post__author" := RefEntry(true, "Post", "author")], None);
    assert Run(adapters, db0, refs, ms, 1) == s1;
    var s2 := Step(adapters, s1.db, s1.refs, posts);
    assert s2 == s1;
    assert Run(adapters, db0, refs, ms, 2) == s1;
  }
}
