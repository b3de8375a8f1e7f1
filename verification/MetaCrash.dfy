/**
 Crashes in the middle of a forward rebuild outside a transaction, where every statement is
 committed on its own. At which positions does running the step again repair the database?
 */
module MetaCrash {
  import opened Common
  import opened MetaSchema
  import opened MetaRebuild
  import opened MetaMigrations
  import opened MetaSteps
  import opened MetaChain
  import opened MetaRuns

  /** Statement number `n` of a rebuild: CREATE, INSERT, DROP, RENAME, then the indexes. */
  function Statement(d: Database, p: Plan, n: nat): Option<Database> {
    if n == 0 then CreateTable(d, p.scratch, p.schema)
    else if n == 1 then
      if p.scratch in d.tables && d.tables[p.scratch].rows == [] then InsertSelect(d, p.scratch, p.canonical, p.copy)
      else None
    else if n == 2 then DropTable(d, p.canonical, false)
    else if n == 3 then RenameTable(d, p.scratch, p.canonical)
    else if n < Statements(p) then CreateIndex(d, p.indexes[n - 4].0, p.indexes[n - 4].1)
    else None
  }

  function Statements(p: Plan): nat {
    4 + |p.indexes|
  }

  /** What is on disk once the first `n` statements have run. */
  function Until(db: Database, p: Plan, n: nat): Option<Database> {
    if n == 0 then Some(db)
    else
      var d := Until(db, p, n - 1);
      if d.None? then None else Statement(d.value, p, n - 1)
  }

  /******* The table part *******/

  lemma UntilCreated(db: Database, p: Plan)
    requires Swaps(db, p)
    ensures Until(db, p, 1) == CreateTable(db, p.scratch, p.schema)
    ensures Until(db, p, 1).Some?
  {
    hide CopyFits;
    assert Until(db, p, 0) == Some(db);
  }

  lemma UntilCopied(db: Database, p: Plan)
    requires PlanOk(p) && Swaps(db, p)
    ensures Until(db, p, 2) ==
      Some(db.(tables := db.tables[p.scratch := Copied(p.copy, p.schema, db.tables[p.canonical])]))
  {
    hide InsertSelect, Copied;
    UntilCreated(db, p);
    CopyIntoScratch(db, p);
  }

  lemma UntilDropped(db: Database, p: Plan)
    requires PlanOk(p) && Swaps(db, p)
    ensures Until(db, p, 3).Some? && Until(db, p, 3) == DropTable(Until(db, p, 2).value, p.canonical, false)
  {
    hide Copied, CopyFits;
    UntilCopied(db, p);
  }

  lemma UntilRenamed(db: Database, p: Plan)
    requires Sound(db) && PlanOk(p) && Swaps(db, p)
    ensures Until(db, p, 4) == Some(InPlace(db, p))
  {
    hide Copied, CopyFits, InPlace, RenameTable, DropTable, Sound;
    UntilCopied(db, p);
    UntilDropped(db, p);
    RecipeIsInPlace(db, p);
  }

  /******* The index part *******/

  lemma {:induction false} CreateIndexesAppend(d: Database, todo: seq<(IndexName, Index)>, x: (IndexName, Index))
    ensures CreateIndexes(d, todo + [x]) ==
      var r := CreateIndexes(d, todo); if r.None? then None else CreateIndex(r.value, x.0, x.1)
    decreases |todo|
  {
    if todo == [] {
      assert todo + [x] == [x];
    } else {
      assert (todo + [x])[0] == todo[0] && (todo + [x])[1..] == todo[1..] + [x];
      var one := CreateIndex(d, todo[0].0, todo[0].1);
      if one.Some? {
        CreateIndexesAppend(one.value, todo[1..], x);
      }
    }
  }

  lemma {:induction false} UntilIndexed(db: Database, p: Plan, n: nat)
    requires Sound(db) && PlanOk(p) && Swaps(db, p) && 4 <= n <= Statements(p)
    ensures Until(db, p, n) == CreateIndexes(InPlace(db, p), p.indexes[..n - 4])
  {
    hide Copied, CopyFits, InPlace, CreateIndex, Sound;
    FitsResolves(p, db.tables[p.canonical]);
    if n == 4 {
      UntilRenamed(db, p);
    } else {
      UntilIndexed(db, p, n - 1);
      assert p.indexes[..n - 4] == p.indexes[..n - 5] + [p.indexes[n - 5]];
      CreateIndexesAppend(InPlace(db, p), p.indexes[..n - 5], p.indexes[n - 5]);
    }
  }

  function NamesOf(todo: seq<(IndexName, Index)>): set<IndexName> {
    set x | x in todo :: x.0
  }

  lemma {:induction false} CreatedNames(d: Database, todo: seq<(IndexName, Index)>)
    requires CreateIndexes(d, todo).Some?
    ensures var e := CreateIndexes(d, todo).value;
      e.tables == d.tables && e.indexes.Keys == d.indexes.Keys + NamesOf(todo)
    decreases |todo|
  {
    if todo != [] {
      var one := CreateIndex(d, todo[0].0, todo[0].1).value;
      CreatedNames(one, todo[1..]);
      assert todo == [todo[0]] + todo[1..];
      assert NamesOf(todo) == {todo[0].0} + NamesOf(todo[1..]);
    }
  }

  lemma PlanIndexes(k: int)
    requires Rebuilds(k, true)
    ensures PlanFor(k, true).indexes ==
      if Changed(k) == Steps then [STEP_INDEX] else if k >= 13 then RUN_INDEXES + [AWAITING_INDEX] else RUN_INDEXES
  {
  }

  lemma LastIsFresh(todo: seq<(IndexName, Index)>, j: nat)
    requires j < |todo| && forall i :: 0 <= i < |todo| - 1 ==> todo[i].0 != todo[|todo| - 1].0
    ensures todo[|todo| - 1].0 !in NamesOf(todo[..j])
  {
  }

  lemma LastName(k: int) returns (last: IndexName)
    requires Rebuilds(k, true)
    ensures last == if Changed(k) == Steps then ByStepStatus else if k >= 13 then OneAwaiting else ByStart
    ensures last in IndexesAt(k) && last !in IndexesOff(IndexesAt(k - 1), Changed(k))
  {
    last := if Changed(k) == Steps then ByStepStatus else if k >= 13 then OneAwaiting else ByStart;
  }

  /** The last index of the plan is not there before its own statement. */
  lemma LastIsLast(k: int, j: nat)
    requires Rebuilds(k, true) && j < |PlanFor(k, true).indexes|
    ensures var todo := PlanFor(k, true).indexes;
      var last := todo[|todo| - 1].0;
      && last !in NamesOf(todo[..j]) && last in IndexesAt(k)
      && last !in IndexesOff(IndexesAt(k - 1), Changed(k))
  {
    hide PlanFor, IndexesAt, IndexesOff, NamesOf;
    PlanIndexes(k);
    var last := LastName(k);
    LastIsFresh(PlanFor(k, true).indexes, j);
  }

  lemma {:induction false} PrefixCreates(d: Database, todo: seq<(IndexName, Index)>, j: nat)
    requires CreateIndexes(d, todo).Some? && j <= |todo|
    ensures CreateIndexes(d, todo[..j]).Some?
    decreases |todo| - j
  {
    hide CreateIndex;
    if j == |todo| {
      assert todo[..j] == todo;
    } else {
      PrefixCreates(d, todo, j + 1);
      assert todo[..j + 1] == todo[..j] + [todo[j]];
      CreateIndexesAppend(d, todo[..j], todo[j]);
    }
  }

  /******* Positions *******/

  /** At its version a forward rebuild always swaps, and all its indexes can be built. */
  lemma ForwardSwaps(db: Database, k: int)
    requires Rebuilds(k, true) && AtVersion(db, k - 1)
    ensures var p := PlanFor(k, true);
      && Sound(db) && PlanOk(p) && Swaps(db, p) && p.canonical == Changed(k) && Changed(k) in db.tables
      && CopyResolves(p.copy, p.schema, db.tables[Changed(k)].schema)
      && CreateIndexes(InPlace(db, p), p.indexes) == Some(InPlace(db, p).(indexes := IndexesAt(k)))
  {
    hide PlanFor, PlanOk, Faithful, Consistent, RunsSchemaAt, StepsSchemaAt, Sound;
    hide NoForbiddenValue, CreateIndexes, InPlace;
    SoundAt(db, k - 1);
    PlansOk(k, true);
    SchemasAround(db, k, true);
    TableOfConsistent(db, Changed(k));
    ForwardNeverForbids(k, PlanFor(k, true), db.tables[Changed(k)]);
    CopyFitsIff(PlanFor(k, true), db.tables[Changed(k)]);
    IndexesRebuilt(db, k, true);
  }

  /** After CREATE or INSERT: the table is as it was, and no attempt can succeed any more. */
  lemma ScratchBlocks(db: Database, k: int, n: nat, enforce: bool)
    requires Rebuilds(k, true) && AtVersion(db, k - 1) && 1 <= n <= 2
    ensures var d := Until(db, PlanFor(k, true), n);
      && d.Some? && Changed(k) in db.tables && Changed(k) in d.value.tables
      && d.value.tables[Changed(k)] == db.tables[Changed(k)]
      && Up(d.value, enforce, k) == None
  {
    hide PlanFor, PlanOk, AtVersion, Copied, CopyFits, InPlace, CreateIndexes, Skips, Sound;
    ForwardSwaps(db, k);
    var p := PlanFor(k, true);
    UntilCreated(db, p);
    UntilCopied(db, p);
    VersionRange(db, k - 1);
    GuardIff(db, k - 1, k);
    ScratchIsElsewhere(k);
    var d := Until(db, p, n).value;
    assert p.scratch in d.tables;
    SameGuard(db, d, k);
  }

  lemma SameGuard(db: Database, d: Database, k: int)
    requires Rebuilds(k, true) && Changed(k) in db.tables && Changed(k) in d.tables
    requires d.tables[Changed(k)] == db.tables[Changed(k)]
    ensures Skips(d, k) <==> Skips(db, k)
  {
  }

  /**
   After DROP: every later step on this table takes it for missing and reports success, and all
   its rows stay under the scratch name.
   */
  lemma DropStrands(db: Database, k: int, j: int, enforce: bool)
    requires Rebuilds(k, true) && AtVersion(db, k - 1) && k <= j <= 16 && Changed(j) == Changed(k)
    ensures var p, d := PlanFor(k, true), Until(db, PlanFor(k, true), 3);
      && d.Some? && Changed(k) in db.tables && Changed(k) !in d.value.tables && p.scratch in d.value.tables
      && CopyResolves(p.copy, p.schema, db.tables[Changed(k)].schema)
      && d.value.tables[p.scratch] == Copied(p.copy, p.schema, db.tables[Changed(k)])
      && Up(d.value, enforce, j) == Some(d.value)
  {
    hide PlanOk, Consistent, RunsSchemaAt, StepsSchemaAt, Copied, InPlace, CreateIndexes;
    ForwardSwaps(db, k);
    UntilCopied(db, PlanFor(k, true));
    UntilDropped(db, PlanFor(k, true));
    ScratchIsElsewhere(k);
  }

  lemma ScratchIsElsewhere(k: int)
    requires Rebuilds(k, true)
    ensures PlanFor(k, true).scratch != PlanFor(k, true).canonical
  {
    PlanSchemas(k, true);
  }

  /** After RENAME but before the last index: the step counts as applied, and that index is never built. */
  lemma MissingIndexStays(db: Database, k: int, n: nat, enforce: bool)
    requires Rebuilds(k, true) && AtVersion(db, k - 1) && 4 <= n < Statements(PlanFor(k, true))
    ensures var p, d := PlanFor(k, true), Until(db, PlanFor(k, true), n);
      && d.Some? && Up(d.value, enforce, k) == Some(d.value)
      && p.indexes[|p.indexes| - 1].0 !in d.value.indexes
      && !AtVersion(d.value, k)
  {
    hide AtVersion, Up, PlanFor, PlanOk, IndexesAt, IndexesOff, InPlace, CreateIndexes, Sound, Swaps, Until;
    ForwardSwaps(db, k);
    var p := PlanFor(k, true);
    UntilIndexed(db, p, n);
    PrefixCreates(InPlace(db, p), p.indexes, n - 4);
    CreatedNames(InPlace(db, p), p.indexes[..n - 4]);
    LastIsLast(k, n - 4);
    InPlaceIndexesOff(db, k);
    var d := Until(db, p, n).value;
    InPlaceSkips(db, k, d);
    SkippedIsSame(d, enforce, k);
    NoIndexNoVersion(d, k, p.indexes[|p.indexes| - 1].0);
  }

  lemma SkippedIsSame(d: Database, enforce: bool, k: int)
    requires Skips(d, k)
    ensures Up(d, enforce, k) == Some(d)
  {
  }

  lemma NoIndexNoVersion(d: Database, k: int, x: IndexName)
    requires 10 <= k && x in IndexesAt(k) && x !in d.indexes
    ensures !AtVersion(d, k)
  {
    hide IndexesAt, Consistent;
  }

  lemma InPlaceIndexesOff(db: Database, k: int)
    requires Rebuilds(k, true) && AtVersion(db, k - 1) && Swaps(db, PlanFor(k, true))
    requires PlanFor(k, true).canonical == Changed(k)
    ensures InPlace(db, PlanFor(k, true)).indexes == IndexesOff(IndexesAt(k - 1), Changed(k))
  {
    hide Consistent, RunsSchemaAt, StepsSchemaAt, CopyRows, IndexesAt;
  }

  /** The new table is what the guard looks for. */
  lemma InPlaceSkips(db: Database, k: int, d: Database)
    requires Rebuilds(k, true) && AtVersion(db, k - 1) && Swaps(db, PlanFor(k, true))
    requires PlanFor(k, true).canonical == Changed(k)
    requires d.tables == InPlace(db, PlanFor(k, true)).tables
    ensures Skips(d, k)
  {
    hide Consistent, PlanFor, RunsSchemaAt, StepsSchemaAt, CopyRows;
    PlanSchemas(k, true);
    var t := d.tables[Changed(k)];
    assert t.schema == SchemaAt(Changed(k), k);
    if Changed(k) == Runs {
      MentionsRuns(k, t);
      ClarifyColumn(k);
    } else {
      MentionsSteps(k, t);
    }
  }

  /**
   Running the step again after a crash reaches its version exactly when no statement had run
   yet, or all of them had.
   */
  lemma RetryRepairsIff(db: Database, k: int, n: nat)
    requires Rebuilds(k, true) && AtVersion(db, k - 1) && n <= Statements(PlanFor(k, true))
    ensures Until(db, PlanFor(k, true), n).Some?
    ensures
      var retried := Up(Until(db, PlanFor(k, true), n).value, false, k);
      (retried.Some? && AtVersion(retried.value, k)) <==> n == 0 || n == Statements(PlanFor(k, true))
  {
    hide AtVersion, Up, PlanFor;
    if n == 0 {
      assert Until(db, PlanFor(k, true), 0) == Some(db);
      ForwardSucceeds(db, k);
    } else if n <= 2 {
      ScratchBlocks(db, k, n, false);
    } else if n == 3 {
      DropStrands(db, k, k, false);
      NoTableNoVersion(Until(db, PlanFor(k, true), 3).value, k);
    } else if n < Statements(PlanFor(k, true)) {
      MissingIndexStays(db, k, n, false);
    } else {
      CompleteIsApplied(db, k);
    }
  }

  lemma NoTableNoVersion(d: Database, k: int)
    requires 10 <= k && Changed(k) !in d.tables
    ensures !AtVersion(d, k)
  {
  }

  lemma CompleteIsApplied(db: Database, k: int)
    requires Rebuilds(k, true) && AtVersion(db, k - 1)
    ensures var d := Until(db, PlanFor(k, true), Statements(PlanFor(k, true)));
      d.Some? && Up(db, false, k) == d && Up(d.value, false, k) == d && AtVersion(d.value, k)
  {
    hide AtVersion, Up, PlanFor, PlanOk, Swaps, Sound, CreateIndexes, InPlace, Faithful;
    ForwardSwaps(db, k);
    var p := PlanFor(k, true);
    UntilIndexed(db, p, Statements(p));
    assert p.indexes[..Statements(p) - 4] == p.indexes;
    ForwardRebuild(db, k);
    RerunIsInvisible(Outcome(db, k, true), k, k, false);
  }
}
