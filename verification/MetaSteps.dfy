/**
 What each step of the chain does to a database at the right version: forward steps always
 succeed and keep every value, rollbacks succeed exactly when no row holds a value that the
 older CHECK constraints forbid, and a rollback right after its step restores the database.
 */
module MetaSteps {
  import opened Common
  import opened MetaSchema
  import opened MetaRebuild
  import opened MetaMigrations

  function Changed(k: int): TableName {
    if k == 11 || k == 13 || k == 16 then Runs else Steps
  }

  function SchemaAt(n: TableName, v: int): Schema {
    if n == Runs then RunsSchemaAt(v) else StepsSchemaAt(v)
  }

  /** The words that V`k` added to a CHECK set, and the column they belong to. */
  function Added(k: int): (Column, set<Word>) {
    if k == 11 then (TriggeredBy, {AutoCron, AutoDream})
    else if k == 12 then (StepKind, {LlmChat})
    else if k == 13 then (Status, {AwaitingUser, Expired})
    else if k == 14 then (StepKind, {UserInput})
    else if k == 16 then (TriggeredBy, {ManualCommand})
    else (StepKind, {})
  }

  /** Some row holds a value that exists only since V`k`. */
  predicate Obsolete(db: Database, k: int)
    requires Changed(k) in db.tables
  {
    Holds(db.tables[Changed(k)], Added(k).0, Added(k).1)
  }

  /******* Facts about any table and any faithful plan *******/

  lemma RowsHave(t: Table, c: Column)
    requires TableOk(t) && c in t.schema.columns
    ensures forall r :: r in t.rows ==> c in r
  {
    forall r | r in t.rows ensures c in r {
      assert Admissible(t.schema, r);
    }
  }

  lemma CopiedRunId(p: Plan, t: Table, i: nat)
    requires TableOk(t) && Faithful(p, t.schema) && i < |t.rows|
    ensures var out := Copied(p.copy, p.schema, t).rows[i];
      RunId in out && RunId in t.rows[i] && out[RunId] == t.rows[i][RunId]
  {
    CopiedByName(p, t, i);
  }

  /** Parents keep their run_id, so a child that had a parent still has one. */
  lemma ParentsKept(p: Plan, t: Table, child: Row)
    requires TableOk(t) && Faithful(p, t.schema) && HasParent(t.rows, child)
    ensures HasParent(Copied(p.copy, p.schema, t).rows, child)
  {
    var out := Copied(p.copy, p.schema, t).rows;
    if child[RunId] != Null {
      var q :| q in t.rows && RunId in q && q[RunId] == child[RunId];
      var j :| 0 <= j < |t.rows| && t.rows[j] == q;
      CopiedRunId(p, t, j);
      assert out[j] in out;
    }
  }

  lemma ChildrenKept(p: Plan, t: Table, parents: seq<Row>)
    requires TableOk(t) && Faithful(p, t.schema) && forall r :: r in t.rows ==> HasParent(parents, r)
    ensures forall r :: r in Copied(p.copy, p.schema, t).rows ==> HasParent(parents, r)
  {
    var out := Copied(p.copy, p.schema, t).rows;
    forall r | r in out ensures HasParent(parents, r) {
      var i :| 0 <= i < |out| && out[i] == r;
      CopiedRunId(p, t, i);
      assert t.rows[i] in t.rows && HasParent(parents, t.rows[i]);
    }
  }

  lemma InPlaceForeignKeys(db: Database, p: Plan)
    requires Consistent(db) && Sound(db) && p.canonical in db.tables
    requires Faithful(p, db.tables[p.canonical].schema)
    requires db.tables[p.canonical].schema.parent == Some(Runs) ==> p.canonical != Runs
    ensures ForeignKeysClean(InPlace(db, p))
  {
    hide TableOk, IndexHonoured;
    var d := InPlace(db, p);
    var t := db.tables[p.canonical];
    SameParent(p, t);
    forall n, r | n in d.tables && d.tables[n].schema.parent.Some? && r in d.tables[n].rows
      ensures HasParent(ParentRows(d, n), r)
    {
      if n == p.canonical {
        ChildrenKept(p, t, ParentRows(db, n));
      } else if p.canonical == Runs {
        ParentsKept(p, t, r);
      }
    }
  }

  lemma SameParent(p: Plan, t: Table)
    requires Faithful(p, t.schema)
    ensures Copied(p.copy, p.schema, t).schema.parent == t.schema.parent
  {
  }

  lemma CreateIndexesHonoured(d: Database, todo: seq<(IndexName, Index)>)
    requires forall x :: x in d.indexes ==> IndexHonoured(d, d.indexes[x])
    requires CreateIndexes(d, todo).Some?
    ensures var e := CreateIndexes(d, todo).value;
      e.tables == d.tables && forall x :: x in e.indexes ==> IndexHonoured(e, e.indexes[x])
    decreases |todo|
  {
    if todo != [] {
      var e := CreateIndex(d, todo[0].0, todo[0].1).value;
      forall x | x in e.indexes ensures IndexHonoured(e, e.indexes[x]) {
        assert IndexHonoured(d, e.indexes[x]);
      }
      CreateIndexesHonoured(e, todo[1..]);
    }
  }

  lemma ClashOnSession(a: Row, b: Row)
    ensures Clash({SessionKey}, a, b) <==>
      SessionKey in a && SessionKey in b && a[SessionKey] != Null && a[SessionKey] == b[SessionKey]
  {
  }

  lemma AwaitingCopied(p: Plan, t: Table, i: nat)
    requires TableOk(t) && Faithful(p, t.schema) && i < |t.rows|
    requires Status in Targets(p.copy, p.schema) && SessionKey in Targets(p.copy, p.schema)
    ensures var out := Copied(p.copy, p.schema, t).rows[i];
      && (Awaiting(out) <==> Awaiting(t.rows[i]))
      && SessionKey in out && SessionKey in t.rows[i] && out[SessionKey] == t.rows[i][SessionKey]
  {
    hide TableOk;
    CopiedByName(p, t, i);
  }

  /** The unique index can be rebuilt when the rows it covers are carried over. */
  lemma AwaitingUniqueAfterCopy(p: Plan, t: Table)
    requires TableOk(t) && Faithful(p, t.schema)
    requires Status in Targets(p.copy, p.schema) && SessionKey in Targets(p.copy, p.schema)
    requires AwaitingUnique(t.rows)
    ensures AwaitingUnique(Copied(p.copy, p.schema, t).rows)
  {
    var out := Copied(p.copy, p.schema, t).rows;
    hide TableOk, Faithful, Clash, CopyRows;
    forall i, j | 0 <= i < j < |out| && Awaiting(out[i]) && Awaiting(out[j])
      ensures !Clash({SessionKey}, out[i], out[j])
    {
      AwaitingCopied(p, t, i);
      AwaitingCopied(p, t, j);
      ClashOnSession(out[i], out[j]);
      ClashOnSession(t.rows[i], t.rows[j]);
    }
  }

  lemma NoneAwaits(t: Table)
    requires TableOk(t) && Status in t.schema.allowed && AwaitingUser !in t.schema.allowed[Status]
    ensures AwaitingUnique(t.rows)
  {
    forall i | 0 <= i < |t.rows| ensures !Awaiting(t.rows[i]) {
      assert t.rows[i] in t.rows && Admissible(t.schema, t.rows[i]);
    }
  }

  /** A faithful rebuild succeeds exactly when no row holds a forbidden value. */
  lemma RebuildIff(db: Database, p: Plan, indexes: map<IndexName, Index>)
    requires Consistent(db) && Sound(db) && p.canonical in db.tables && p.scratch !in db.tables
    requires Faithful(p, db.tables[p.canonical].schema)
    requires db.tables[p.canonical].schema.parent == Some(Runs) ==> p.canonical != Runs
    requires CreateIndexes(InPlace(db, p), p.indexes) == Some(InPlace(db, p).(indexes := indexes))
    ensures Rebuild(db, false, p) ==
      if NoForbiddenValue(p, db.tables[p.canonical].rows)
      then Some(InPlace(db, p).(indexes := indexes)) else None
    ensures NoForbiddenValue(p, db.tables[p.canonical].rows) ==>
      Consistent(InPlace(db, p).(indexes := indexes))
  {
    hide Consistent, Sound, Faithful, NoForbiddenValue, CopyFits, InPlace, CreateIndexes, ForeignKeysClean;
    TableOfConsistent(db, p.canonical);
    CopyFitsIff(p, db.tables[p.canonical]);
    if NoForbiddenValue(p, db.tables[p.canonical].rows) {
      InPlaceConsistent(db, p, indexes);
    }
  }

  lemma TableOfConsistent(db: Database, n: TableName)
    requires Consistent(db) && n in db.tables
    ensures TableOk(db.tables[n])
  {
  }

  lemma InPlaceTables(db: Database, p: Plan, n: TableName)
    requires Consistent(db) && p.canonical in db.tables && n in db.tables
    requires CopyFits(p.copy, p.schema, db.tables[p.canonical])
    ensures TableOk(InPlace(db, p).tables[n])
  {
    hide TableOk, IndexHonoured, ForeignKeysClean;
  }

  lemma InPlaceIndexes(db: Database, p: Plan)
    requires Consistent(db) && p.canonical in db.tables
    requires CopyResolves(p.copy, p.schema, db.tables[p.canonical].schema)
    ensures var d := InPlace(db, p); forall x :: x in d.indexes ==> IndexHonoured(d, d.indexes[x])
  {
    hide TableOk, ForeignKeysClean, AwaitingUnique;
    var d := InPlace(db, p);
    forall x | x in d.indexes ensures IndexHonoured(d, d.indexes[x]) {
      assert IndexHonoured(db, db.indexes[x]);
    }
  }

  lemma FitsResolves(p: Plan, t: Table)
    requires CopyFits(p.copy, p.schema, t)
    ensures CopyResolves(p.copy, p.schema, t.schema)
  {
  }

  lemma IndexedIsConsistent(d: Database, indexes: map<IndexName, Index>)
    requires forall n :: n in d.tables ==> TableOk(d.tables[n])
    requires var e := d.(indexes := indexes); forall x :: x in e.indexes ==> IndexHonoured(e, e.indexes[x])
    requires ForeignKeysClean(d)
    ensures Consistent(d.(indexes := indexes)) && ForeignKeysClean(d.(indexes := indexes))
  {
    hide TableOk, IndexHonoured, HasParent;
    var e := d.(indexes := indexes);
    assert forall n :: n in d.tables && d.tables[n].schema.parent.Some? ==> ParentRows(e, n) == ParentRows(d, n);
  }

  lemma InPlaceConsistent(db: Database, p: Plan, indexes: map<IndexName, Index>)
    requires Consistent(db) && Sound(db) && p.canonical in db.tables
    requires Faithful(p, db.tables[p.canonical].schema)
    requires db.tables[p.canonical].schema.parent == Some(Runs) ==> p.canonical != Runs
    requires CopyFits(p.copy, p.schema, db.tables[p.canonical])
    requires CreateIndexes(InPlace(db, p), p.indexes) == Some(InPlace(db, p).(indexes := indexes))
    ensures Consistent(InPlace(db, p).(indexes := indexes))
    ensures ForeignKeysClean(InPlace(db, p).(indexes := indexes))
  {
    hide Consistent, Sound, Faithful, CopyFits, CreateIndexes, TableOk, ForeignKeysClean, IndexHonoured;
    FitsResolves(p, db.tables[p.canonical]);
    forall n | n in InPlace(db, p).tables ensures TableOk(InPlace(db, p).tables[n]) {
      InPlaceTables(db, p, n);
    }
    InPlaceForeignKeys(db, p);
    InPlaceIndexes(db, p);
    CreateIndexesHonoured(InPlace(db, p), p.indexes);
    IndexedIsConsistent(InPlace(db, p), indexes);
  }

  /** Narrowing one CHECK set forbids exactly the words that leave it. */
  lemma ForbidsIff(p: Plan, t: Table, col: Column, lost: set<Word>)
    requires TableOk(t) && p.schema.allowed.Keys == t.schema.allowed.Keys
    requires col in p.schema.allowed && col in t.schema.columns
    requires forall c :: c in p.schema.allowed && c != col ==> t.schema.allowed[c] <= p.schema.allowed[c]
    requires lost !! p.schema.allowed[col] && t.schema.allowed[col] <= p.schema.allowed[col] + lost
    ensures NoForbiddenValue(p, t.rows) <==> !Holds(t, col, lost)
  {
    forall r | r in t.rows
      ensures forall c :: c in p.schema.allowed && c in r ==> Accepts(t.schema.allowed[c], r[c])
    {
      assert Admissible(t.schema, r);
    }
    if Holds(t, col, lost) {
      var r: Row :| r in t.rows && col in r && r[col].Lit? && r[col].word in lost;
      assert !Accepts(p.schema.allowed[col], r[col]);
    } else {
      forall r, c | r in t.rows && c in p.schema.allowed && c in r ensures Accepts(p.schema.allowed[c], r[c]) {
      }
    }
  }

  /******* The schemas of the chain *******/

  lemma TriggersFaithful(t: set<Word>, s: set<Word>, t': set<Word>, s': set<Word>)
    ensures Faithful(RunsPlan(RunsNew, t, s, false, SelectStar), RunsSchema(t', s', false))
  {
  }

  lemma ManualFaithful(t: set<Word>, s: set<Word>, t': set<Word>, s': set<Word>)
    ensures Faithful(RunsPlan(RunsNew, t, s, true, InsertInto(RUN_COLUMNS + CLARIFY_COLUMNS)), RunsSchema(t', s', true))
  {
  }

  lemma ClarifyColumnsAreNew()
    ensures ParseFailureCount !in RUN_COLUMNS && ParseFailureCount !in RUN_REQUIRED
    ensures RUN_COLUMNS[0] == RunId && RUN_COLUMNS[4] == TriggeredBy && RUN_COLUMNS[8] == Status
    ensures forall c :: c in RUN_REQUIRED ==> c in RUN_COLUMNS
  {
  }

  lemma ClarifyRequired(t: set<Word>, s: set<Word>, t': set<Word>, s': set<Word>)
    ensures var dst, src := RunsSchema(t, s, true), RunsSchema(t', s', false);
      forall c :: c in dst.required ==> if c in RUN_COLUMNS then c in src.required else Default(dst, c) != Null
  {
    ClarifyColumnsAreNew();
    forall c | c in RunsSchema(t, s, true).required ensures c in RUN_REQUIRED || c == ParseFailureCount {
    }
  }

  /** Inserting named columns that both tables have is faithful if the rest has defaults. */
  lemma InsertIsFaithful(p: Plan, src: Schema, cols: seq<Column>)
    requires p.copy == InsertInto(cols) && RunId in cols
    requires forall c :: c in cols ==> c in p.schema.columns && c in src.columns
    requires p.schema.key == src.key == {RunId} && p.schema.parent == src.parent
    requires forall c :: c in p.schema.allowed ==> c in cols
    requires forall c :: c in p.schema.required ==>
      if c in cols then c in src.required else Default(p.schema, c) != Null
    ensures Faithful(p, src)
  {
  }

  lemma InBoth<T>(a: seq<T>, b: seq<T>)
    ensures forall x :: x in a ==> x in a + b
  {
  }

  lemma ClarifyFaithful(t: set<Word>, s: set<Word>, t': set<Word>, s': set<Word>)
    ensures Faithful(RunsPlan(RunsNew, t, s, true, InsertInto(RUN_COLUMNS)), RunsSchema(t', s', false))
  {
    hide Default, Faithful;
    var p, src := RunsPlan(RunsNew, t, s, true, InsertInto(RUN_COLUMNS)), RunsSchema(t', s', false);
    ClarifyColumnsAreNew();
    ClarifyRequired(t, s, t', s');
    InBoth(RUN_COLUMNS, CLARIFY_COLUMNS);
    InsertIsFaithful(p, src, RUN_COLUMNS);
  }

  lemma UnclarifyFaithful(t: set<Word>, s: set<Word>, t': set<Word>, s': set<Word>)
    ensures Faithful(RunsPlan(RunsOld, t, s, false, SelectInto(RUN_COLUMNS)), RunsSchema(t', s', true))
  {
  }

  lemma StepsFaithful(w: set<Word>, w': set<Word>, usage: bool)
    ensures Faithful(StepsPlan(w, InsertInto(STEP_COLUMNS)), StepsSchema(w', usage))
    ensures Faithful(StepsPlan(w, SelectStar), StepsSchema(w', false))
  {
  }

  lemma PlansFaithful(k: int, up: bool)
    requires 11 <= k <= 16 && !(k == 15 && up)
    ensures Faithful(PlanFor(k, up), SchemaAt(Changed(k), if up then k - 1 else k))
  {
    if k == 11 && up {
      TriggersFaithful(TRIGGERS_V011, STATUS_V010, TRIGGERS_V010, STATUS_V010);
    } else if k == 11 {
      TriggersFaithful(TRIGGERS_V010, STATUS_V010, TRIGGERS_V011, STATUS_V010);
    } else if k == 12 && up {
      StepsFaithful(KINDS_V012, KINDS_V010, false);
    } else if k == 12 {
      StepsFaithful(KINDS_V010, KINDS_V012, false);
    } else if k == 13 && up {
      ClarifyFaithful(TRIGGERS_V011, STATUS_V013, TRIGGERS_V011, STATUS_V010);
    } else if k == 13 {
      UnclarifyFaithful(TRIGGERS_V011, STATUS_V010, TRIGGERS_V011, STATUS_V013);
    } else if k == 14 && up {
      StepsFaithful(KINDS_V014, KINDS_V012, false);
    } else if k == 14 {
      StepsFaithful(KINDS_V012, KINDS_V014, false);
    } else if k == 15 {
      StepsFaithful(KINDS_V014, KINDS_V014, true);
    } else if up {
      ManualFaithful(TRIGGERS_V016, STATUS_V013, TRIGGERS_V011, STATUS_V013);
    } else {
      ManualFaithful(TRIGGERS_V011, STATUS_V013, TRIGGERS_V016, STATUS_V013);
    }
  }

  lemma PlanSchemas(k: int, up: bool)
    requires 11 <= k <= 16
    ensures PlanFor(k, up).canonical == Changed(k) && IsScratch(PlanFor(k, up).scratch)
    ensures !(k == 15 && up) ==>
      PlanFor(k, up).schema == SchemaAt(Changed(k), if up then k else k - 1)
    ensures PlanFor(k, up).schema.parent == if Changed(k) == Runs then None else Some(Runs)
    ensures Changed(k) != Runs ==> RunsSchemaAt(k) == RunsSchemaAt(k - 1)
    ensures Changed(k) != Steps ==> StepsSchemaAt(k) == StepsSchemaAt(k - 1)
  {
  }
}
