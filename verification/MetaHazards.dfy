/**
 The accidents the rebuild recipe is written to avoid, and the one it does not avoid
 outside a transaction.
 */
module MetaHazards {
  import opened Common
  import opened MetaSchema
  import opened MetaRebuild
  import opened MetaMigrations
  import opened MetaChain
  import opened MetaRuns

  lemma NoSurvivors(children: seq<Row>, parents: seq<Row>)
    requires forall r :: r in children ==> RunId in r && r[RunId] != Null && HasParent(parents, r)
    ensures Survivors(children, parents) == []
  {
    if children != [] {
      assert children[0] in children;
      NoSurvivors(children[1..], parents);
    }
  }

  lemma CascadeEmptiesChildren(db: Database)
    requires Consistent(db) && db.tables.Keys == {Runs, Steps}
    requires db.tables[Steps].schema.parent == Some(Runs) && db.tables[Runs].schema.parent == None
    requires RunId in db.tables[Steps].schema.required && RunId in db.tables[Steps].schema.columns
    ensures var d := DropTable(db, Runs, true);
      d.Some? && d.value.tables.Keys == {Steps} && d.value.tables[Steps] == db.tables[Steps].(rows := [])
  {
    var t := db.tables[Steps];
    forall r | r in t.rows ensures RunId in r && r[RunId] != Null && HasParent(db.tables[Runs].rows, r) {
      assert Admissible(t.schema, r);
    }
    NoSurvivors(t.rows, db.tables[Runs].rows);
  }

  lemma EmptyChildIsClean(d: Database, rebuilt: Table)
    requires d.tables.Keys == {Steps} && d.tables[Steps].rows == []
    requires d.tables[Steps].schema.parent == Some(Runs) && rebuilt.schema.parent == None
    ensures ForeignKeysClean(d.(tables := d.tables[Runs := rebuilt]))
  {
  }

  /** With enforcement live the drop would delete every step row, and the check would pass. */
  lemma LiveEnforcementWouldWipeSteps(db: Database, v: int, rebuilt: Table)
    requires AtVersion(db, v) && v >= 10 && rebuilt.schema.parent == None
    ensures var d := DropTable(db, Runs, true);
      && d.Some? && Steps in d.value.tables && d.value.tables[Steps].rows == []
      && ForeignKeysClean(d.value.(tables := d.value.tables[Runs := rebuilt]))
  {
    hide IndexesAt, Consistent, DropTable, ForeignKeysClean, RunsSchemaAt;
    StepSchemaKeyed(v);
    CascadeEmptiesChildren(db);
    EmptyChildIsClean(DropTable(db, Runs, true).value, rebuilt);
  }

  /**
   Renaming the old table away drags the child's reference with it. Once the old table is
   dropped the reference dangles, and the check fails exactly when there is a step row.
   */
  lemma RenamingOldTableOrphansSteps(db: Database, v: int, rebuilt: Table)
    requires AtVersion(db, v) && v >= 10 && rebuilt.schema.parent == None
    ensures var moved := RenameTable(db, Runs, RunsOld);
      && moved.Some?
      && var dropped := DropTable(moved.value.(tables := moved.value.tables[Runs := rebuilt]), RunsOld, false);
         && dropped.Some? && RunsOld !in dropped.value.tables
         && Steps in dropped.value.tables && dropped.value.tables[Steps].schema.parent == Some(RunsOld)
         && (ForeignKeysClean(dropped.value) <==> db.tables[Steps].rows == [])
  {
    hide IndexesAt, RunsSchemaAt, StepsSchemaAt, IndexHonoured, KeysDistinct;
    StepSchemaKeyed(v);
    RunIdRequired(v);
    var moved := RenameTable(db, Runs, RunsOld).value;
    assert moved.tables[Steps].schema.parent == Some(RunsOld);
    var dropped := DropTable(moved.(tables := moved.tables[Runs := rebuilt]), RunsOld, false).value;
    assert dropped.tables.Keys == {Runs, Steps};
    assert dropped.tables[Steps].rows == db.tables[Steps].rows;
    if db.tables[Steps].rows != [] {
      var r := db.tables[Steps].rows[0];
      assert r in dropped.tables[Steps].rows && Admissible(db.tables[Steps].schema, r);
      assert !HasParent(ParentRows(dropped, Steps), r);
    }
  }

  lemma RunIdRequired(v: int)
    ensures RunId in StepsSchemaAt(v).required && RunId in StepsSchemaAt(v).columns
  {
    assert STEP_COLUMNS[0] == RunId;
  }

  lemma SecondRunFits(t: Table, i: nat, id: string)
    requires TableOk(t) && i < |t.rows| && t.schema.key == {RunId}
    requires RunId in t.schema.columns && RunId !in t.schema.allowed
    requires forall r :: r in t.rows && RunId in r ==> r[RunId] != Text(id)
    ensures TableOk(t.(rows := t.rows + [t.rows[i][RunId := Text(id)]]))
  {
    var row := t.rows[i][RunId := Text(id)];
    assert t.rows[i] in t.rows && Admissible(t.schema, t.rows[i]);
    assert Admissible(t.schema, row);
    forall j | 0 <= j < |t.rows| ensures !Clash({RunId}, t.rows[j], row) {
      assert t.rows[j] in t.rows;
    }
  }

  lemma MoreParents(rows: seq<Row>, more: Row, child: Row)
    requires HasParent(rows, child)
    ensures HasParent(rows + [more], child)
  {
    if child[RunId] != Null {
      var r :| r in rows && RunId in r && r[RunId] == child[RunId];
      assert r in rows + [more];
    }
  }

  lemma SecondRunAccepted(db: Database, i: nat, id: string)
    requires Consistent(db) && db.tables.Keys == {Runs, Steps} && i < |db.tables[Runs].rows|
    requires forall x :: x in db.indexes ==> db.indexes[x].Plain?
    requires db.tables[Runs].schema.parent == None && db.tables[Runs].schema.key == {RunId}
    requires RunId in db.tables[Runs].schema.columns && RunId !in db.tables[Runs].schema.allowed
    requires forall r :: r in db.tables[Runs].rows && RunId in r ==> r[RunId] != Text(id)
    ensures Consistent(Attempted(db, InsertRun(db.tables[Runs].rows[i][RunId := Text(id)])))
  {
    var row := db.tables[Runs].rows[i][RunId := Text(id)];
    var d := Attempted(db, InsertRun(row));
    SecondRunFits(db.tables[Runs], i, id);
    forall x | x in d.indexes ensures IndexHonoured(d, d.indexes[x]) {
      assert IndexHonoured(db, db.indexes[x]);
    }
    forall n, r | n in d.tables && d.tables[n].schema.parent.Some? && r in d.tables[n].rows
      ensures HasParent(ParentRows(d, n), r)
    {
      assert n == Steps && HasParent(ParentRows(db, n), r);
      if db.tables[n].schema.parent.value == Runs {
        MoreParents(db.tables[Runs].rows, row, r);
      }
    }
  }

  lemma RunKeyFacts(v: int)
    ensures RunsSchemaAt(v).key == {RunId} && RunsSchemaAt(v).parent == None
    ensures RunId in RunsSchemaAt(v).columns && RunId !in RunsSchemaAt(v).allowed
  {
    assert RUN_COLUMNS[0] == RunId && (RUN_COLUMNS + CLARIFY_COLUMNS)[0] == RunId;
  }

  lemma OnlyAwaitingIsUnique(v: int)
    ensures forall x :: x in IndexesAt(v) - {OneAwaiting} ==> IndexesAt(v)[x].Plain?
  {
  }

  /**
   Outside a transaction a refused rollback of V013 is not free of effects. It has already
   dropped the unique index, so any parked run of any session can be doubled.
   */
  lemma RefusedRollbackLosesTheGuard(db: Database, i: nat, id: string)
    requires AtVersion(db, 13) && i < |db.tables[Runs].rows| && Awaiting(db.tables[Runs].rows[i])
    requires SessionKey in db.tables[Runs].rows[i] && db.tables[Runs].rows[i][SessionKey] != Null
    requires forall r :: r in db.tables[Runs].rows && RunId in r ==> r[RunId] != Text(id)
    ensures Down(db, false, 13) == None
    ensures
      var twin := InsertRun(db.tables[Runs].rows[i][RunId := Text(id)]);
      && Written(db, twin) == db
      && Runs in Written(WithoutAwaitingIndex(db), twin).tables
      && !AwaitingUnique(Written(WithoutAwaitingIndex(db), twin).tables[Runs].rows)
  {
    var twin := InsertRun(db.tables[Runs].rows[i][RunId := Text(id)]);
    assert db.tables[Runs].rows[i] in db.tables[Runs].rows;
    assert Holds(db.tables[Runs], Status, {AwaitingUser, Expired});
    PreparedAt13(db);
    RunKeyFacts(13);
    OnlyAwaitingIsUnique(13);
    SecondRunAccepted(WithoutAwaitingIndex(db), i, id);
    TwinClashes(db.tables[Runs].rows, i, id);
    assert !IndexHonoured(Attempted(db, twin), db.indexes[OneAwaiting]);
  }

  lemma TwinClashes(rows: seq<Row>, i: nat, id: string)
    requires i < |rows| && Awaiting(rows[i]) && SessionKey in rows[i] && rows[i][SessionKey] != Null
    ensures !AwaitingUnique(rows + [rows[i][RunId := Text(id)]])
  {
    var d := rows + [rows[i][RunId := Text(id)]];
    assert d[i] == rows[i] && Awaiting(d[|rows|]) && Clash({SessionKey}, d[i], d[|rows|]);
  }

  lemma PreparedAt13(db: Database)
    requires AtVersion(db, 13)
    ensures Consistent(WithoutAwaitingIndex(db))
  {
    SoundAt(db, 13);
    PreparedConsistent(db, 13, false);
  }
}
