/**
 Migrations V010 to V016, forwards and backwards.

 `Up` and `Down` give the meaning of each step: the database it leaves, or None when it
 raises. Class `Connection` runs the steps statement by statement, the way the migration
 files do, together with the foreign-key flag and the surrounding transaction.
 */
module MetaMigrations {
  import opened Common
  import opened MetaSchema
  import opened MetaRebuild

  function RunsPlan(scratch: TableName, triggers: set<Word>, statuses: set<Word>, clarify: bool, copy: Copy): Plan {
    Plan(Runs, scratch, RunsSchema(triggers, statuses, clarify), copy,
         if clarify then RUN_INDEXES + [AWAITING_INDEX] else RUN_INDEXES)
  }

  function StepsPlan(kinds: set<Word>, copy: Copy): Plan {
    Plan(Steps, StepsNew, StepsSchema(kinds, false), copy, [STEP_INDEX])
  }

  /** The recreate each migration file performs, forwards (`up`) or in its rollback. */
  function PlanFor(k: int, up: bool): Plan {
    if k == 11 then
      RunsPlan(RunsNew, if up then TRIGGERS_V011 else TRIGGERS_V010, STATUS_V010, false, SelectStar)
    else if k == 12 then
      StepsPlan(if up then KINDS_V012 else KINDS_V010, SelectStar)
    else if k == 13 then
      if up then RunsPlan(RunsNew, TRIGGERS_V011, STATUS_V013, true, InsertInto(RUN_COLUMNS))
      else RunsPlan(RunsOld, TRIGGERS_V011, STATUS_V010, false, SelectInto(RUN_COLUMNS))
    else if k == 14 then
      StepsPlan(if up then KINDS_V014 else KINDS_V012, InsertInto(STEP_COLUMNS))
    else if k == 15 then
      StepsPlan(KINDS_V014, InsertInto(STEP_COLUMNS))
    else
      RunsPlan(RunsNew, if up then TRIGGERS_V016 else TRIGGERS_V011, STATUS_V013, true,
               InsertInto(RUN_COLUMNS + CLARIFY_COLUMNS))
  }

  /** "literal in the table's SQL": the CHECK clauses are the only place these words occur. */
  predicate Mentions(t: Table, w: Word) {
    exists c :: c in t.schema.allowed && w in t.schema.allowed[c]
  }

  /** The re-run guard of each step: already applied, or its table is missing. */
  predicate Skips(db: Database, k: int) {
    if k == 10 then Runs in db.tables
    else if k == 11 then Runs !in db.tables || Mentions(db.tables[Runs], AutoCron)
    else if k == 12 then Steps !in db.tables || Mentions(db.tables[Steps], LlmChat)
    else if k == 13 then Runs !in db.tables || AwaitingStepId in db.tables[Runs].schema.columns
    else if k == 14 then Steps !in db.tables || Mentions(db.tables[Steps], UserInput)
    else if k == 15 then Steps !in db.tables || UsageJson in db.tables[Steps].schema.columns
    else Runs !in db.tables || Mentions(db.tables[Runs], ManualCommand)
  }

  /** ALTER TABLE ... ADD COLUMN usage_json TEXT NOT NULL DEFAULT '{}'. */
  function WithUsage(t: Table): Table {
    Table(
      t.schema.(columns := t.schema.columns + [UsageJson],
                required := t.schema.required + {UsageJson},
                defaults := t.schema.defaults[UsageJson := Text("{}")]),
      seq(|t.rows|, i requires 0 <= i < |t.rows| => t.rows[i][UsageJson := Text("{}")]))
  }

  function Created(db: Database): Option<Database> {
    if Steps in db.tables then None
    else
      var tables := db.tables[Runs := Table(RunsSchemaAt(10), [])][Steps := Table(StepsSchemaAt(10), [])];
      CreateIndexes(db.(tables := tables), RUN_INDEXES + [STEP_INDEX])
  }

  /** apply_step of V`k` on a connection whose enforcement flag is `enforce`. */
  function Up(db: Database, enforce: bool, k: int): Option<Database> {
    if Skips(db, k) then Some(db)
    else if k == 10 then Created(db)
    else if k == 15 then Some(db.(tables := db.tables[Steps := WithUsage(db.tables[Steps])]))
    else Rebuild(db, enforce, PlanFor(k, true))
  }

  predicate Holds(t: Table, c: Column, words: set<Word>) {
    exists r: Row :: r in t.rows && c in r && r[c].Lit? && r[c].word in words
  }

  function WithoutAwaitingIndex(db: Database): Database {
    db.(indexes := db.indexes - {OneAwaiting})
  }

  /** Where a step starts its rebuild: the rollback of V013 has dropped its unique index by then. */
  function Prepared(db: Database, k: int, up: bool): Database {
    if k == 13 && !up then WithoutAwaitingIndex(db) else db
  }

  /** The rollback returns early: its table is missing, or V015's column is. */
  predicate NothingToUndo(db: Database, k: int) {
    if k == 12 || k == 14 then Steps !in db.tables
    else if k == 15 then Steps !in db.tables || UsageJson !in db.tables[Steps].schema.columns
    else Runs !in db.tables
  }

  /** The explicit row counts that V013, V014 and V016 make before rolling back. */
  predicate RollbackBlocked(db: Database, k: int) {
    || (k == 13 && Runs in db.tables && Holds(db.tables[Runs], Status, {AwaitingUser, Expired}))
    || (k == 14 && Steps in db.tables && Holds(db.tables[Steps], StepKind, {UserInput}))
    || (k == 16 && Runs in db.tables && Holds(db.tables[Runs], TriggeredBy, {ManualCommand}))
  }

  function DropIfExists(db: Database, name: TableName, enforce: bool): Database {
    var d := DropTable(db, name, enforce);
    if d.Some? then d.value else db
  }

  /** rollback_step of V`k`. */
  function Down(db: Database, enforce: bool, k: int): Option<Database> {
    if k == 10 then Some(DropIfExists(DropIfExists(db, Steps, enforce), Runs, enforce))
    else if NothingToUndo(db, k) then Some(db)
    else if RollbackBlocked(db, k) then None
    else Rebuild(Prepared(db, k, false), enforce, PlanFor(k, false))
  }

  function Meaning(db: Database, enforce: bool, k: int, up: bool): Option<Database> {
    if up then Up(db, enforce, k) else Down(db, enforce, k)
  }

  /** The step gets as far as the OFF/ON bracket when enforcement is off. */
  predicate Brackets(db: Database, k: int, up: bool) {
    k != 10 &&
    if up then k != 15 && !Skips(db, k) else !NothingToUndo(db, k) && !RollbackBlocked(db, k)
  }

  /******* Rows of the child table *******/

  function Get(r: Row, c: Column): Value {
    if c in r then r[c] else Null
  }

  /** The identities of all step rows, in order. */
  function StepKeys(db: Database): seq<(Value, Value)> {
    if Steps in db.tables then
      var rows := db.tables[Steps].rows;
      seq(|rows|, i requires 0 <= i < |rows| => (Get(rows[i], RunId), Get(rows[i], StepId)))
    else []
  }

  predicate StepKeyed(columns: seq<Column>) {
    |columns| >= 2 && columns[0] == RunId && columns[1] == StepId
  }

  predicate IsScratch(n: TableName) {
    n == RunsNew || n == RunsOld || n == StepsNew
  }

  /** What holds of the schema objects in every state, half-finished rebuilds included. */
  predicate Sound(db: Database) {
    && (forall n :: n in db.tables ==> db.tables[n].schema.parent in {None, Some(Runs)})
    && (forall x :: x in db.indexes ==> !IsScratch(db.indexes[x].on))
    && (Steps in db.tables ==>
          && StepKeyed(db.tables[Steps].schema.columns)
          && forall r :: r in db.tables[Steps].rows ==> RunId in r && StepId in r)
  }

  predicate PlanOk(p: Plan) {
    && IsScratch(p.scratch)
    && p.schema.parent in {None, Some(Runs)}
    && (p.canonical == Runs || p.canonical == Steps)
    && (forall x :: x in p.indexes ==> !IsScratch(x.1.on))
    && (p.canonical == Steps ==>
          StepKeyed(p.schema.columns) && (p.copy.SelectStar? || StepKeyed(p.copy.columns)))
  }

  lemma CopyKeepsStepKeys(p: Plan, t: Table)
    requires PlanOk(p) && p.canonical == Steps && StepKeyed(t.schema.columns)
    requires CopyResolves(p.copy, p.schema, t.schema)
    requires forall r :: r in t.rows ==> RunId in r && StepId in r
    ensures var out := Copied(p.copy, p.schema, t).rows;
      forall i :: 0 <= i < |t.rows| ==>
        && RunId in out[i] && StepId in out[i]
        && out[i][RunId] == t.rows[i][RunId] && out[i][StepId] == t.rows[i][StepId]
  {
    var targets, sources := Targets(p.copy, p.schema), Sources(p.copy, t.schema);
    assert Position(targets, RunId) == 0;
    assert Position(targets, StepId) == 1;
    forall i | 0 <= i < |t.rows|
      ensures var out := CopyRow(p.schema, targets, sources, t.rows[i]);
        RunId in out && StepId in out && out[RunId] == t.rows[i][RunId] && out[StepId] == t.rows[i][StepId]
    {
      assert t.rows[i] in t.rows;
    }
  }

  lemma BaseIndexesOk()
    ensures forall x :: x in RUN_INDEXES + [STEP_INDEX] ==> !IsScratch(x.1.on)
    ensures StepKeyed(StepsSchemaAt(10).columns)
    ensures RunsSchemaAt(10).parent == None && StepsSchemaAt(10).parent == Some(Runs)
  {
  }

  lemma CreateTableKeepsSound(db: Database, n: TableName, s: Schema)
    requires Sound(db) && n !in db.tables && s.parent in {None, Some(Runs)}
    requires n == Steps ==> StepKeyed(s.columns)
    ensures Sound(CreateTable(db, n, s).value)
    ensures StepKeys(CreateTable(db, n, s).value) == StepKeys(db)
  {
  }

  lemma UsageKeepsSound(db: Database)
    requires Sound(db) && Steps in db.tables && UsageJson !in db.tables[Steps].schema.columns
    ensures var d := db.(tables := db.tables[Steps := WithUsage(db.tables[Steps])]);
      Sound(d) && StepKeys(d) == StepKeys(db)
  {
    var t, u := db.tables[Steps], WithUsage(db.tables[Steps]);
    forall r | r in u.rows ensures RunId in r && StepId in r {
      var i :| 0 <= i < |u.rows| && u.rows[i] == r;
      assert t.rows[i] in t.rows;
    }
    assert StepKeyed(u.schema.columns);
  }

  lemma DropKeepsSound(db: Database, n: TableName, enforce: bool)
    requires Sound(db) && (n == Steps || Steps !in db.tables)
    ensures Sound(DropIfExists(db, n, enforce)) && (n == Steps ==> Steps !in DropIfExists(db, n, enforce).tables)
  {
  }

  lemma RunsPlanOk(scratch: TableName, triggers: set<Word>, statuses: set<Word>, clarify: bool, copy: Copy)
    requires IsScratch(scratch)
    ensures PlanOk(RunsPlan(scratch, triggers, statuses, clarify, copy))
  {
  }

  lemma StepsPlanOk(kinds: set<Word>, copy: Copy)
    requires copy == SelectStar || copy == InsertInto(STEP_COLUMNS)
    ensures PlanOk(StepsPlan(kinds, copy))
  {
  }

  lemma PlansOk(k: int, up: bool)
    requires 11 <= k <= 16
    ensures PlanOk(PlanFor(k, up))
  {
    if k == 11 {
      RunsPlanOk(RunsNew, if up then TRIGGERS_V011 else TRIGGERS_V010, STATUS_V010, false, SelectStar);
    } else if k == 12 {
      StepsPlanOk(if up then KINDS_V012 else KINDS_V010, SelectStar);
    } else if k == 13 && up {
      RunsPlanOk(RunsNew, TRIGGERS_V011, STATUS_V013, true, InsertInto(RUN_COLUMNS));
    } else if k == 13 {
      RunsPlanOk(RunsOld, TRIGGERS_V011, STATUS_V010, false, SelectInto(RUN_COLUMNS));
    } else if k == 14 {
      StepsPlanOk(if up then KINDS_V014 else KINDS_V012, InsertInto(STEP_COLUMNS));
    } else if k == 15 {
      StepsPlanOk(KINDS_V014, InsertInto(STEP_COLUMNS));
    } else {
      RunsPlanOk(RunsNew, if up then TRIGGERS_V016 else TRIGGERS_V011, STATUS_V013, true,
                 InsertInto(RUN_COLUMNS + CLARIFY_COLUMNS));
    }
  }

  predicate Swaps(db: Database, p: Plan) {
    && p.canonical in db.tables && p.scratch !in db.tables
    && CopyFits(p.copy, p.schema, db.tables[p.canonical])
  }

  /** A rebuild that stopped at its copy: the empty scratch table is there already. */
  function Begun(db: Database, p: Plan): Database {
    if p.scratch in db.tables then db else CreateTable(db, p.scratch, p.schema).value
  }

  /** The rollback is refused by a row count, by live enforcement, or by the copy. */
  predicate Early(db: Database, enforce: bool, k: int) {
    RollbackBlocked(db, k) || enforce || !Swaps(Prepared(db, k, false), PlanFor(k, false))
  }

  /** What such a refusal leaves behind when no transaction undoes it. */
  function LeftBehind(db: Database, enforce: bool, k: int): Database {
    if RollbackBlocked(db, k) || enforce then Prepared(db, k, false)
    else Begun(Prepared(db, k, false), PlanFor(k, false))
  }

  lemma NoSwap(db: Database, p: Plan)
    requires p.scratch in db.tables
    ensures !Swaps(db, p)
  {
  }

  lemma CopyIntoScratch(db: Database, p: Plan)
    requires PlanOk(p) && p.scratch !in db.tables
    ensures
      var filled := InsertSelect(CreateTable(db, p.scratch, p.schema).value, p.scratch, p.canonical, p.copy);
      && (filled.Some? <==> Swaps(db, p))
      && (filled.Some? ==>
            filled.value == db.(tables := db.tables[p.scratch := Copied(p.copy, p.schema, db.tables[p.canonical])]))
  {
    hide CopyFits, Copied;
  }

  /** Build under a scratch name, copy, drop, rename: the table changed in place. */
  lemma RecipeIsInPlace(db: Database, p: Plan)
    requires Sound(db) && PlanOk(p) && Swaps(db, p)
    ensures
      var filled := db.tables[p.scratch := Copied(p.copy, p.schema, db.tables[p.canonical])];
      var dropped := DropTable(db.(tables := filled), p.canonical, false);
      dropped.Some? && RenameTable(dropped.value, p.scratch, p.canonical) == Some(InPlace(db, p))
  {
    hide TableOk, CopyRows;
    var copied := Copied(p.copy, p.schema, db.tables[p.canonical]);
    var filled := db.tables[p.scratch := copied];
    var dropped := DropTable(db.(tables := filled), p.canonical, false).value;
    var renamed := RenameTable(dropped, p.scratch, p.canonical).value;
    var goal := InPlace(db, p);
    assert renamed.tables.Keys == goal.tables.Keys;
    forall n | n in goal.tables ensures renamed.tables[n] == goal.tables[n] {
    }
    assert renamed.tables == goal.tables;
    assert renamed.indexes == goal.indexes;
  }

  lemma InPlaceKeepsSteps(db: Database, p: Plan)
    requires Sound(db) && PlanOk(p) && Swaps(db, p)
    ensures Sound(InPlace(db, p))
    ensures StepKeys(InPlace(db, p)) == StepKeys(db)
  {
    hide TableOk, CopyRows;
    if p.canonical == Steps {
      CopyKeepsStepKeys(p, db.tables[Steps]);
    }
  }

  /******* The connection the migrations run on *******/

  class Connection {
    var db: Database
    var enforce: bool
    const inTx: bool

    predicate Valid()
      reads this
    {
      Sound(db)
    }

    constructor (db: Database, enforce: bool, inTx: bool)
      requires Sound(db)
      ensures Valid() && this.db == db && this.enforce == enforce && this.inTx == inTx
    {
      this.db, this.enforce, this.inTx := db, enforce, inTx;
    }

    /** A documented no-op inside a transaction. */
    method PragmaForeignKeys(on: bool)
      modifies this`enforce
      ensures enforce == if inTx then old(enforce) else on
    {
      if !inTx {
        enforce := on;
      }
    }

    method CreateAll(todo: seq<(IndexName, Index)>) returns (ok: bool)
      requires Valid() && forall x :: x in todo ==> !IsScratch(x.1.on)
      modifies this`db
      ensures Valid() && db.tables == old(db).tables
      ensures ok <==> CreateIndexes(old(db), todo).Some?
      ensures ok ==> Some(db) == CreateIndexes(old(db), todo)
    {
      var i := 0;
      while i < |todo|
        invariant 0 <= i <= |todo|
        invariant db.tables == old(db).tables && Sound(db)
        invariant CreateIndexes(old(db), todo) == CreateIndexes(db, todo[i..])
      {
        var r := CreateIndex(db, todo[i].0, todo[i].1);
        assert todo[i] in todo;
        assert todo[i..][0] == todo[i] && todo[i..][1..] == todo[i + 1..];
        if r.None? { return false; }
        db := r.value;
        i := i + 1;
      }
      ok := true;
    }

    /** Build under the scratch name, copy, drop the old table, rename. */
    method SwapTable(p: Plan) returns (ok: bool)
      requires Valid() && PlanOk(p) && !enforce
      modifies this`db
      ensures Valid() && StepKeys(db) == old(StepKeys(db))
      ensures ok <==> Swaps(old(db), p)
      ensures db == if ok then InPlace(old(db), p) else Begun(old(db), p)
    {
      hide InsertSelect, RenameTable, DropTable, InPlace, StepKeys, Sound, Swaps;
      if p.scratch in db.tables {
        NoSwap(db, p);
        return false;
      }
      CreateTableKeepsSound(db, p.scratch, p.schema);
      CopyIntoScratch(db, p);
      db := CreateTable(db, p.scratch, p.schema).value;
      var r := InsertSelect(db, p.scratch, p.canonical, p.copy);
      if r.None? { return false; }
      RecipeIsInPlace(old(db), p);
      InPlaceKeepsSteps(old(db), p);
      db := r.value;
      db := DropTable(db, p.canonical, enforce).value;
      db := RenameTable(db, p.scratch, p.canonical).value;
      ok := true;
    }

    /** The try block of a recreate: swap the table, index it, check foreign keys. */
    method RebuildStatements(p: Plan) returns (ok: bool)
      requires Valid() && PlanOk(p) && !enforce
      modifies this`db
      ensures Valid()
      ensures ok <==> Rebuild(old(db), false, p).Some?
      ensures ok ==> Some(db) == Rebuild(old(db), false, p)
      ensures !Swaps(old(db), p) ==> !ok && db == Begun(old(db), p)
      ensures StepKeys(db) == old(StepKeys(db))
    {
      ok := SwapTable(p);
      if !ok { return; }
      ok := CreateAll(p.indexes);
      if !ok { return; }
      ok := ForeignKeysClean(db);
    }

    /** _recreate_*_table: refuse live enforcement, then OFF, rebuild, and ON in any case. */
    method Recreate(p: Plan) returns (ok: bool)
      requires Valid() && PlanOk(p)
      modifies this
      ensures Valid()
      ensures ok <==> Rebuild(old(db), old(enforce), p).Some?
      ensures ok ==> Some(db) == Rebuild(old(db), old(enforce), p)
      ensures old(enforce) ==> db == old(db)
      ensures !old(enforce) && !Swaps(old(db), p) ==> db == Begun(old(db), p)
      ensures enforce == if inTx then old(enforce) else true
      ensures StepKeys(db) == old(StepKeys(db))
    {
      if enforce { return false; }
      PragmaForeignKeys(false);
      ok := RebuildStatements(p);
      PragmaForeignKeys(true);
    }

    method ApplyV010() returns (ok: bool)
      requires Valid()
      modifies this`db
      ensures Valid()
      ensures ok <==> Up(old(db), enforce, 10).Some?
      ensures ok ==> Some(db) == Up(old(db), enforce, 10)
      ensures StepKeys(db) == old(StepKeys(db))
    {
      if Runs in db.tables { return true; }
      BaseIndexesOk();
      CreateTableKeepsSound(db, Runs, RunsSchemaAt(10));
      var r := CreateTable(db, Runs, RunsSchemaAt(10));
      db := r.value;
      r := CreateTable(db, Steps, StepsSchemaAt(10));
      if r.None? { return false; }
      CreateTableKeepsSound(db, Steps, StepsSchemaAt(10));
      db := r.value;
      ok := CreateAll(RUN_INDEXES + [STEP_INDEX]);
    }

    method RollbackV010() returns (ok: bool)
      requires Valid()
      modifies this`db
      ensures Valid() && ok
      ensures Some(db) == Down(old(db), enforce, 10)
    {
      hide Sound, DropTable;
      DropKeepsSound(db, Steps, enforce);
      db := DropIfExists(db, Steps, enforce);
      DropKeepsSound(db, Runs, enforce);
      db := DropIfExists(db, Runs, enforce);
      ok := true;
    }

    /** apply_step of V011, V012, V013, V014 and V016: guard, then recreate. */
    method ApplyRebuild(k: int) returns (ok: bool)
      requires Valid() && k in {11, 12, 13, 14, 16}
      modifies this
      ensures Valid()
      ensures ok <==> Up(old(db), old(enforce), k).Some?
      ensures ok ==> Some(db) == Up(old(db), old(enforce), k)
      ensures old(enforce) ==> db == old(db)
      ensures enforce == if !inTx && Brackets(old(db), k, true) then true else old(enforce)
      ensures StepKeys(db) == old(StepKeys(db))
    {
      if Skips(db, k) { return true; }
      PlansOk(k, true);
      ok := Recreate(PlanFor(k, true));
    }

    method ApplyV015() returns (ok: bool)
      requires Valid()
      modifies this`db
      ensures Valid() && ok
      ensures Some(db) == Up(old(db), enforce, 15)
      ensures StepKeys(db) == old(StepKeys(db))
    {
      if Skips(db, 15) { return true; }
      UsageKeepsSound(db);
      hide Sound, StepKeys, WithUsage;
      db := db.(tables := db.tables[Steps := WithUsage(db.tables[Steps])]);
      ok := true;
    }

    /** rollback_step of V011 to V016; V013 drops its unique index before it counts rows. */
    method RollbackRebuild(k: int) returns (ok: bool)
      requires Valid() && 11 <= k <= 16
      modifies this
      ensures Valid()
      ensures ok <==> Down(old(db), old(enforce), k).Some?
      ensures ok ==> Some(db) == Down(old(db), old(enforce), k)
      ensures !ok && Early(old(db), old(enforce), k) ==> db == LeftBehind(old(db), old(enforce), k)
      ensures enforce == if !inTx && Brackets(old(db), k, false) then true else old(enforce)
      ensures StepKeys(db) == old(StepKeys(db))
    {
      if NothingToUndo(db, k) { return true; }
      db := Prepared(db, k, false);
      if RollbackBlocked(db, k) { return false; }
      PlansOk(k, false);
      ok := Recreate(PlanFor(k, false));
    }

    /** One yoyo step: inside a transaction, an exception rolls the database back. */
    method RunStep(k: int, up: bool) returns (ok: bool)
      requires Valid() && 10 <= k <= 16
      modifies this
      ensures Valid()
      ensures ok <==> Meaning(old(db), old(enforce), k, up).Some?
      ensures ok ==> Some(db) == Meaning(old(db), old(enforce), k, up)
      ensures !ok && inTx ==> db == old(db)
      ensures !ok && up && k != 10 && old(enforce) ==> db == old(db)
      ensures !ok && !inTx && !up && Early(old(db), old(enforce), k) ==> db == LeftBehind(old(db), old(enforce), k)
      ensures enforce == if !inTx && Brackets(old(db), k, up) then true else old(enforce)
      ensures !(k == 10 && !up) ==> StepKeys(db) == old(StepKeys(db))
    {
      var saved := db;
      if up && k == 10 {
        ok := ApplyV010();
      } else if up && k == 15 {
        ok := ApplyV015();
      } else if up {
        ok := ApplyRebuild(k);
      } else if k == 10 {
        ok := RollbackV010();
      } else {
        ok := RollbackRebuild(k);
      }
      if !ok && inTx {
        db := saved;
      }
    }

    /** Any sequence of steps, in any order, in either mode: no step row is ever lost. */
    method RunChain(script: seq<(int, bool)>)
      requires Valid()
      requires forall s :: s in script ==> 10 <= s.0 <= 16 && s != (10, false)
      modifies this
      ensures Valid()
      ensures StepKeys(db) == old(StepKeys(db))
      ensures inTx ==> enforce == old(enforce)
      ensures old(enforce) ==> enforce
    {
      var i := 0;
      while i < |script|
        invariant 0 <= i <= |script| && Valid()
        invariant StepKeys(db) == old(StepKeys(db))
        invariant inTx ==> enforce == old(enforce)
        invariant old(enforce) ==> enforce
      {
        assert script[i] in script;
        var _ := RunStep(script[i].0, script[i].1);
        i := i + 1;
      }
    }
  }
}
