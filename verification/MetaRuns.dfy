/**
 Theorems about the chain: every forward step succeeds and keeps every value, re-runs are
 invisible, rollbacks succeed exactly when no row holds a newer value, a rollback undoes
 its step, and whole histories of steps, re-runs, rollbacks and runtime writes.
 */
module MetaRuns {
  import opened Common
  import opened MetaSchema
  import opened MetaRebuild
  import opened MetaMigrations
  import opened MetaSteps
  import opened MetaChain

  /******* What is kept *******/

  /** Row by row, every value is still there. */
  ghost predicate Keeps(before: Table, after: Table) {
    && |after.rows| == |before.rows|
    && forall i, c :: 0 <= i < |before.rows| && c in before.rows[i] ==>
         c in after.rows[i] && after.rows[i][c] == before.rows[i][c]
  }

  ghost predicate KeepsAll(before: Database, after: Database) {
    forall n :: n in before.tables ==> n in after.tables && Keeps(before.tables[n], after.tables[n])
  }

  lemma CopyKeeps(p: Plan, t: Table)
    requires TableOk(t) && Faithful(p, t.schema) && t.schema.columns == Targets(p.copy, p.schema)
    ensures Keeps(t, Copied(p.copy, p.schema, t))
  {
    forall i | 0 <= i < |t.rows|
      ensures forall c :: c in t.rows[i] ==>
        && c in Copied(p.copy, p.schema, t).rows[i]
        && Copied(p.copy, p.schema, t).rows[i][c] == t.rows[i][c]
    {
      CopiedByName(p, t, i);
    }
  }

  lemma ForwardCarriesAll(k: int)
    requires Rebuilds(k, true)
    ensures SchemaAt(Changed(k), k - 1).columns == Targets(PlanFor(k, true).copy, PlanFor(k, true).schema)
  {
  }

  /******* The re-run guards *******/

  lemma MentionsRuns(v: int, t: Table)
    requires t.schema == RunsSchemaAt(v) && 10 <= v <= 16
    ensures Mentions(t, AutoCron) <==> 11 <= v
    ensures Mentions(t, ManualCommand) <==> 16 <= v
  {
    if 11 <= v { assert AutoCron in t.schema.allowed[TriggeredBy]; }
    if 16 <= v { assert ManualCommand in t.schema.allowed[TriggeredBy]; }
  }

  lemma MentionsSteps(v: int, t: Table)
    requires t.schema == StepsSchemaAt(v) && 10 <= v <= 16
    ensures Mentions(t, LlmChat) <==> 12 <= v
    ensures Mentions(t, UserInput) <==> 14 <= v
  {
    if 12 <= v { assert LlmChat in t.schema.allowed[StepKind]; }
    if 14 <= v { assert UserInput in t.schema.allowed[StepKind]; }
  }

  lemma ClarifyColumn(v: int)
    ensures AwaitingStepId in RunsSchemaAt(v).columns <==> 13 <= v
  {
    if 13 <= v { assert RunsSchemaAt(v).columns[16] == AwaitingStepId; }
  }

  lemma UsageColumn(v: int)
    ensures UsageJson in StepsSchemaAt(v).columns <==> 15 <= v
  {
    if 15 <= v { assert StepsSchemaAt(v).columns[13] == UsageJson; }
  }

  /** The guards recognise exactly the steps that have been applied. */
  lemma GuardIff(db: Database, v: int, k: int)
    requires AtVersion(db, v) && 10 <= v && 10 <= k <= 16
    ensures Skips(db, k) <==> k <= v
  {
    MentionsRuns(v, db.tables[Runs]);
    MentionsSteps(v, db.tables[Steps]);
    ClarifyColumn(v);
    UsageColumn(v);
  }

  /** Re-running any applied step changes nothing, whatever the enforcement flag says. */
  lemma RerunIsInvisible(db: Database, v: int, k: int, enforce: bool)
    requires AtVersion(db, v) && 10 <= k <= v
    ensures Up(db, enforce, k) == Some(db)
  {
    GuardIff(db, v, k);
  }

  /** With enforcement live, every rebuild that is still due refuses. */
  lemma EnforcementRefuses(db: Database, v: int, k: int)
    requires AtVersion(db, v) && 10 <= v < k <= 16 && k != 15
    ensures Up(db, true, k) == None
  {
    GuardIff(db, v, k);
  }

  lemma EnforcementRefusesRollback(db: Database, v: int, k: int)
    requires AtVersion(db, v) && 11 <= k <= v
    ensures Down(db, true, k) == None
  {
    UsageColumn(v);
  }

  /******* Forward steps *******/

  lemma EmptyTablesConsistent(d: Database)
    requires d.tables.Keys == {Runs, Steps} && d.tables[Runs].rows == [] && d.tables[Steps].rows == []
    requires d.tables[Runs].schema.parent == None && d.tables[Steps].schema.parent == Some(Runs)
    requires forall x :: x in d.indexes ==> d.indexes[x].on in d.tables
    ensures Consistent(d)
  {
  }

  lemma V010Creates()
    ensures Up(EMPTY, false, 10).Some? && AtVersion(Up(EMPTY, false, 10).value, 10)
  {
    var d := EMPTY.(tables := map[Runs := Table(RunsSchemaAt(10), []), Steps := Table(StepsSchemaAt(10), [])]);
    assert d.tables == EMPTY.tables[Runs := Table(RunsSchemaAt(10), [])][Steps := Table(StepsSchemaAt(10), [])];
    FourIndexes(d, [STEP_INDEX]);
    FourAt10();
    assert d.indexes + FOUR == FOUR;
    Peel(d.(indexes := FOUR), [STEP_INDEX]);
    EmptyTablesConsistent(d.(indexes := IndexesAt(10)));
  }

  lemma WithUsageOk(t: Table)
    requires TableOk(t) && UsageJson !in t.schema.columns
    requires UsageJson !in t.schema.allowed && UsageJson !in t.schema.key
    ensures TableOk(WithUsage(t)) && Keeps(t, WithUsage(t))
  {
    var out := WithUsage(t);
    forall r | r in out.rows ensures Admissible(out.schema, r) {
      var i :| 0 <= i < |out.rows| && out.rows[i] == r;
      assert t.rows[i] in t.rows && Admissible(t.schema, t.rows[i]);
    }
    forall i, j | 0 <= i < j < |out.rows| ensures !Clash(t.schema.key, out.rows[i], out.rows[j]) {
      if Clash(t.schema.key, out.rows[i], out.rows[j]) {
        assert Clash(t.schema.key, t.rows[i], t.rows[j]);
      }
    }
    forall i, c | 0 <= i < |t.rows| && c in t.rows[i] ensures out.rows[i][c] == t.rows[i][c] {
      assert t.rows[i] in t.rows && Admissible(t.schema, t.rows[i]);
    }
  }

  lemma UsageSchema()
    ensures var s := StepsSchemaAt(14);
      s.(columns := s.columns + [UsageJson], required := s.required + {UsageJson},
         defaults := s.defaults[UsageJson := Text("{}")]) == StepsSchemaAt(15)
  {
    var s := StepsSchemaAt(14);
    assert s.defaults[UsageJson := Text("{}")] == StepsSchemaAt(15).defaults;
  }

  /** Adding a column touches no other table, no index and no link. */
  lemma StepsReplacedConsistent(db: Database, t: Table)
    requires Consistent(db) && Runs in db.tables && Steps in db.tables && Sound(db)
    requires db.tables[Runs].schema.parent == None
    requires TableOk(t) && Keeps(db.tables[Steps], t) && t.schema.parent == db.tables[Steps].schema.parent
    requires forall x :: x in db.indexes && db.indexes[x].UniqueAwaiting? ==> db.indexes[x].on == Runs
    ensures Consistent(db.(tables := db.tables[Steps := t]))
  {
    hide TableOk, AwaitingUnique, HasParent, Keeps, StepKeyed;
    var d := db.(tables := db.tables[Steps := t]);
    forall x | x in d.indexes ensures IndexHonoured(d, d.indexes[x]) {
      assert IndexHonoured(db, db.indexes[x]);
    }
    forall n, r | n in d.tables && d.tables[n].schema.parent.Some? && r in d.tables[n].rows
      ensures HasParent(ParentRows(d, n), r)
    {
      if n == Steps {
        StepParentsKept(db, t, r);
      } else {
        assert ParentRows(d, n) == ParentRows(db, n) && HasParent(ParentRows(db, n), r);
      }
    }
  }

  lemma StepParentsKept(db: Database, t: Table, r: Row)
    requires ForeignKeysClean(db) && Runs in db.tables && Steps in db.tables && Sound(db)
    requires Keeps(db.tables[Steps], t) && t.schema.parent == db.tables[Steps].schema.parent
    requires t.schema.parent.Some? && r in t.rows
    ensures HasParent(db.tables[Runs].rows, r)
  {
    var i :| 0 <= i < |t.rows| && t.rows[i] == r;
    var was := db.tables[Steps].rows[i];
    assert was in db.tables[Steps].rows && HasParent(ParentRows(db, Steps), was);
  }

  lemma UsageAdded(db: Database)
    requires AtVersion(db, 14)
    ensures var t := WithUsage(db.tables[Steps]);
      && TableOk(t) && Keeps(db.tables[Steps], t) && t.schema == StepsSchemaAt(15)
      && t.schema.parent == db.tables[Steps].schema.parent
  {
    hide IndexesAt, RunsSchemaAt;
    UsageColumn(14);
    UsageSchema();
    WithUsageOk(db.tables[Steps]);
  }

  lemma UniqueIsOnRuns(v: int)
    ensures forall x :: x in IndexesAt(v) && IndexesAt(v)[x].UniqueAwaiting? ==> IndexesAt(v)[x].on == Runs
  {
  }

  lemma UsageConsistent(db: Database)
    requires AtVersion(db, 14)
    ensures Consistent(db.(tables := db.tables[Steps := WithUsage(db.tables[Steps])]))
  {
    hide Consistent, IndexesAt, RunsSchemaAt, StepsSchemaAt, TableOk, Keeps, WithUsage;
    UsageAdded(db);
    UniqueIsOnRuns(14);
    SoundAt(db, 14);
    StepSchemaKeyed(14);
    StepsReplacedConsistent(db, WithUsage(db.tables[Steps]));
  }

  lemma SameBesidesSteps()
    ensures RunsSchemaAt(14) == RunsSchemaAt(15) && IndexesAt(14) == IndexesAt(15)
  {
  }

  lemma V015Adds(db: Database)
    requires AtVersion(db, 14)
    ensures Up(db, false, 15).Some? && AtVersion(Up(db, false, 15).value, 15)
    ensures Up(db, false, 15).value == db.(tables := db.tables[Steps := WithUsage(db.tables[Steps])])
    ensures Keeps(db.tables[Steps], WithUsage(db.tables[Steps]))
  {
    hide Consistent, IndexesAt, RunsSchemaAt, StepsSchemaAt, TableOk, Keeps, WithUsage, Skips;
    GuardIff(db, 14, 15);
    UsageAdded(db);
    UsageConsistent(db);
    SameBesidesSteps();
  }

  lemma ForwardRebuild(db: Database, k: int)
    requires Rebuilds(k, true) && AtVersion(db, k - 1)
    ensures PlanFor(k, true).canonical == Changed(k) && Changed(k) in db.tables
    ensures Faithful(PlanFor(k, true), db.tables[Changed(k)].schema)
    ensures Up(db, false, k) == Some(Outcome(db, k, true)) && AtVersion(Outcome(db, k, true), k)
  {
    GuardIff(db, k - 1, k);
    SchemasAround(db, k, true);
    RebuildAtVersion(db, k, true);
    ForwardNeverForbids(k, PlanFor(k, true), db.tables[Changed(k)]);
  }

  lemma InPlaceKeepsAll(db: Database, p: Plan, indexes: map<IndexName, Index>)
    requires p.canonical in db.tables && TableOk(db.tables[p.canonical])
    requires Faithful(p, db.tables[p.canonical].schema)
    requires db.tables[p.canonical].schema.columns == Targets(p.copy, p.schema)
    ensures KeepsAll(db, InPlace(db, p).(indexes := indexes))
  {
    CopyKeeps(p, db.tables[p.canonical]);
  }

  /** Every in-order forward step succeeds, and keeps every row and every value. */
  lemma ForwardSucceeds(db: Database, k: int)
    requires 10 <= k <= 16 && AtVersion(db, k - 1)
    ensures Up(db, false, k).Some?
    ensures AtVersion(Up(db, false, k).value, k)
    ensures KeepsAll(db, Up(db, false, k).value)
  {
    if k == 10 {
      V010Creates();
    } else if k == 15 {
      V015Adds(db);
    } else {
      ForwardRebuild(db, k);
      ForwardCarriesAll(k);
      InPlaceKeepsAll(db, PlanFor(k, true), IndexesAt(k));
    }
  }

  /******* Rollbacks *******/

  lemma RollbackGuards(db: Database, k: int)
    requires 11 <= k <= 16 && AtVersion(db, k)
    ensures RollbackBlocked(db, k) ==> Obsolete(db, k)
    ensures Down(db, false, k) ==
      if RollbackBlocked(db, k) then None else Rebuild(Prepared(db, k, false), false, PlanFor(k, false))
  {
    UsageColumn(k);
  }

  lemma ObsoleteIff(db: Database, k: int)
    requires 11 <= k <= 16 && AtVersion(db, k)
    requires PlanFor(k, false).schema == SchemaAt(Changed(k), k - 1)
    ensures NoForbiddenValue(PlanFor(k, false), db.tables[Changed(k)].rows) <==> !Obsolete(db, k)
  {
    BackwardForbidsIff(k, PlanFor(k, false), db.tables[Changed(k)]);
  }

  /** An in-order rollback succeeds exactly when no row holds a value V`k` introduced. */
  lemma RollbackIff(db: Database, k: int)
    requires 11 <= k <= 16 && AtVersion(db, k)
    ensures PlanFor(k, false).canonical == Changed(k) && Changed(k) in db.tables
    ensures Faithful(PlanFor(k, false), db.tables[Changed(k)].schema)
    ensures Down(db, false, k) == if Obsolete(db, k) then None else Some(Outcome(db, k, false))
    ensures !Obsolete(db, k) ==> AtVersion(Outcome(db, k, false), k - 1)
  {
    hide PlanFor, Faithful, Consistent, RunsSchemaAt, StepsSchemaAt, IndexesAt;
    RollbackGuards(db, k);
    SchemasAround(db, k, false);
    RebuildAtVersion(db, k, false);
    ObsoleteIff(db, k);
  }

  /** Copying back the columns of `t` from a table that keeps `t` gives `t` again. */
  lemma CopyBack(q: Plan, t: Table, u: Table)
    requires TableOk(t) && TableOk(u) && Keeps(t, u) && Faithful(q, u.schema)
    requires q.schema == t.schema && Targets(q.copy, q.schema) == t.schema.columns
    ensures NoForbiddenValue(q, u.rows)
    ensures Copied(q.copy, q.schema, u) == t
  {
    var out := Copied(q.copy, q.schema, u).rows;
    forall i | 0 <= i < |t.rows| ensures out[i] == t.rows[i] {
      CopiedByName(q, u, i);
      assert t.rows[i] in t.rows && Admissible(t.schema, t.rows[i]);
    }
    assert out == t.rows;
    forall r, c | r in u.rows && c in q.schema.allowed && c in r ensures Accepts(q.schema.allowed[c], r[c]) {
      var i :| 0 <= i < |u.rows| && u.rows[i] == r;
      assert t.rows[i] in t.rows && Admissible(t.schema, t.rows[i]);
      assert c in t.schema.columns;
    }
  }

  lemma BackwardCarriesAll(k: int)
    requires 11 <= k <= 16
    ensures SchemaAt(Changed(k), k - 1).columns == Targets(PlanFor(k, false).copy, PlanFor(k, false).schema)
  {
  }

  /** A forward step replaces one table by one that keeps it. */
  lemma OnlyOneTableChanges(db: Database, k: int)
    requires 11 <= k <= 16 && AtVersion(db, k - 1)
    ensures Up(db, false, k).Some?
    ensures var d := Up(db, false, k).value;
      && AtVersion(d, k) && Changed(k) in db.tables && Changed(k) in d.tables
      && d.tables == db.tables[Changed(k) := d.tables[Changed(k)]]
      && Keeps(db.tables[Changed(k)], d.tables[Changed(k)])
  {
    if k == 15 {
      V015Adds(db);
    } else {
      ForwardRebuild(db, k);
      ForwardCarriesAll(k);
      CopyKeeps(PlanFor(k, true), db.tables[Changed(k)]);
    }
  }

  lemma CopyBackInPlace(tables: map<TableName, Table>, d: Database, e: Database, q: Plan)
    requires q.canonical in tables && q.canonical in d.tables && e.tables == d.tables
    requires d.tables == tables[q.canonical := d.tables[q.canonical]]
    requires TableOk(tables[q.canonical]) && TableOk(d.tables[q.canonical])
    requires Keeps(tables[q.canonical], d.tables[q.canonical]) && Faithful(q, d.tables[q.canonical].schema)
    requires q.schema == tables[q.canonical].schema
    requires Targets(q.copy, q.schema) == tables[q.canonical].schema.columns
    ensures NoForbiddenValue(q, d.tables[q.canonical].rows)
    ensures InPlace(e, q).tables == tables
  {
    CopyBack(q, tables[q.canonical], d.tables[q.canonical]);
    assert d.tables[q.canonical := tables[q.canonical]] == tables;
  }

  lemma RollbackRestores(db: Database, d: Database, k: int)
    requires 11 <= k <= 16 && AtVersion(db, k - 1) && AtVersion(d, k)
    requires Changed(k) in db.tables && Changed(k) in d.tables
    requires d.tables == db.tables[Changed(k) := d.tables[Changed(k)]]
    requires Keeps(db.tables[Changed(k)], d.tables[Changed(k)])
    ensures PlanFor(k, false).canonical == Changed(k)
    ensures Faithful(PlanFor(k, false), d.tables[Changed(k)].schema)
    ensures !Obsolete(d, k) && Outcome(d, k, false).tables == db.tables
  {
    SchemasAround(d, k, false);
    BackwardCarriesAll(k);
    CopyBackInPlace(db.tables, d, Prepared(d, k, false), PlanFor(k, false));
    ObsoleteIff(d, k);
  }

  /** The rollback of V010 empties the database, rows or not. */
  lemma V010Undone(db: Database)
    requires AtVersion(db, 10)
    ensures Down(db, false, 10) == Some(EMPTY)
  {
    hide Consistent, RunsSchemaAt, StepsSchemaAt;
    var a := DropIfExists(db, Steps, false);
    var b := DropIfExists(a, Runs, false);
    assert a.tables.Keys == {Runs};
    assert b.tables == map[];
    assert b.indexes == map[];
  }

  /** Rolling a step back right after applying it restores schema, indexes and rows. */
  lemma RollbackUndoes(db: Database, k: int)
    requires 10 <= k <= 16 && AtVersion(db, k - 1)
    ensures Up(db, false, k).Some? && Down(Up(db, false, k).value, false, k) == Some(db)
  {
    if k == 10 {
      V010Creates();
      V010Undone(Up(db, false, 10).value);
    } else {
      OnlyOneTableChanges(db, k);
      var d := Up(db, false, k).value;
      RollbackIff(d, k);
      RollbackRestores(db, d, k);
      assert Outcome(d, k, false).indexes == db.indexes;
    }
  }

  /******* Histories *******/

  /** Runtime writes of the ledger; the writer's connection has enforcement on. */
  datatype Write =
    | InsertRun(run: Row)
    | UpdateRun(at: nat, run: Row)
    | DeleteRun(at: nat)
    | InsertStep(step: Row)
    | UpdateStep(at: nat, step: Row)
    | DeleteStep(at: nat)

  function WithRows(db: Database, n: TableName, rows: seq<Row>): Database
    requires n in db.tables
  {
    db.(tables := db.tables[n := db.tables[n].(rows := rows)])
  }

  function Without(rows: seq<Row>, i: nat): seq<Row>
    requires i < |rows|
  {
    rows[..i] + rows[i + 1..]
  }

  function Attempted(db: Database, w: Write): Database
    requires Runs in db.tables && Steps in db.tables
  {
    var runs, steps := db.tables[Runs].rows, db.tables[Steps].rows;
    match w
    case InsertRun(r) => WithRows(db, Runs, runs + [r])
    case UpdateRun(i, r) => if i < |runs| then WithRows(db, Runs, runs[i := r]) else db
    case DeleteRun(i) =>
      if i < |runs| then WithRows(WithRows(db, Steps, Survivors(steps, [runs[i]])), Runs, Without(runs, i)) else db
    case InsertStep(r) => WithRows(db, Steps, steps + [r])
    case UpdateStep(i, r) => if i < |steps| then WithRows(db, Steps, steps[i := r]) else db
    case DeleteStep(i) => if i < |steps| then WithRows(db, Steps, Without(steps, i)) else db
  }

  /** SQLite performs a write only if every constraint holds afterwards. */
  function Written(db: Database, w: Write): Database {
    if Runs in db.tables && Steps in db.tables && Consistent(Attempted(db, w)) then Attempted(db, w) else db
  }

  datatype Event = Apply(k: int) | Revert(k: int) | Runtime(write: Write)

  /** One event; a migration that raises is rolled back by its transaction. */
  function Step(db: Database, e: Event): Database {
    match e
    case Apply(k) => var r := Up(db, false, k); if r.Some? then r.value else db
    case Revert(k) => var r := Down(db, false, k); if r.Some? then r.value else db
    case Runtime(w) => Written(db, w)
  }

  function NextVersion(db: Database, v: int, e: Event): int {
    match e
    case Apply(k) => if k == v + 1 then k else v
    case Revert(k) => if Down(db, false, k).Some? then v - 1 else v
    case Runtime(_) => v
  }

  /** The dependency graph: apply the next step or re-run an earlier one, revert the last one. */
  predicate Legal(v: int, e: Event) {
    match e
    case Apply(k) => 10 <= k <= 16 && k <= v + 1
    case Revert(k) => k == v && 10 <= k
    case Runtime(_) => true
  }

  predicate LegalHistory(db: Database, v: int, es: seq<Event>)
    decreases |es|
  {
    es == [] || (Legal(v, es[0]) && LegalHistory(Step(db, es[0]), NextVersion(db, v, es[0]), es[1..]))
  }

  function Replay(db: Database, es: seq<Event>): Database
    decreases |es|
  {
    if es == [] then db else Replay(Step(db, es[0]), es[1..])
  }

  function FinalVersion(db: Database, v: int, es: seq<Event>): int
    decreases |es|
  {
    if es == [] then v else FinalVersion(Step(db, es[0]), NextVersion(db, v, es[0]), es[1..])
  }

  /** The history without the re-runs of steps that were already applied. */
  function Once(db: Database, v: int, es: seq<Event>): seq<Event>
    decreases |es|
  {
    if es == [] then []
    else
      var rest := Once(Step(db, es[0]), NextVersion(db, v, es[0]), es[1..]);
      if es[0].Apply? && es[0].k <= v then rest else [es[0]] + rest
  }

  lemma WriteKeepsVersion(db: Database, v: int, w: Write)
    requires AtVersion(db, v)
    ensures AtVersion(Written(db, w), v)
  {
    hide Consistent, IndexesAt, RunsSchemaAt, StepsSchemaAt;
  }

  lemma StepKeepsVersion(db: Database, v: int, e: Event)
    requires AtVersion(db, v) && Legal(v, e)
    ensures AtVersion(Step(db, e), NextVersion(db, v, e))
  {
    hide Consistent, RunsSchemaAt, StepsSchemaAt, IndexesAt, Shape, Up, Down, Outcome, Obsolete, KeepsAll;
    match e
    case Apply(k) =>
      if k == v + 1 { ForwardSucceeds(db, k); } else { RerunIsInvisible(db, v, k, false); }
    case Revert(k) => if k == 10 { V010Undone(db); } else { RollbackIff(db, k); }
    case Runtime(w) => WriteKeepsVersion(db, v, w);
  }

  /** Every reachable state satisfies all constraints of its version. */
  lemma HistoryKeepsVersion(db: Database, v: int, es: seq<Event>)
    requires AtVersion(db, v) && LegalHistory(db, v, es)
    ensures AtVersion(Replay(db, es), FinalVersion(db, v, es))
    decreases |es|
  {
    if es != [] {
      StepKeepsVersion(db, v, es[0]);
      HistoryKeepsVersion(Step(db, es[0]), NextVersion(db, v, es[0]), es[1..]);
    }
  }

  /** In every reachable state a session has at most one run awaiting the user. */
  lemma OneAwaitingRunPerSession(es: seq<Event>, i: nat, j: nat)
    requires LegalHistory(EMPTY, 9, es) && Runs in Replay(EMPTY, es).tables
    requires i < j < |Replay(EMPTY, es).tables[Runs].rows|
    ensures var rows := Replay(EMPTY, es).tables[Runs].rows;
      Awaiting(rows[i]) && Awaiting(rows[j]) ==> !Clash({SessionKey}, rows[i], rows[j])
  {
    HistoryKeepsVersion(EMPTY, 9, es);
    AwaitingUniqueAt(Replay(EMPTY, es), FinalVersion(EMPTY, 9, es));
  }

  /** Re-running applied steps, anywhere and any number of times, changes nothing. */
  lemma RerunsAreInvisible(db: Database, v: int, es: seq<Event>)
    requires AtVersion(db, v) && LegalHistory(db, v, es)
    ensures Replay(db, es) == Replay(db, Once(db, v, es))
    decreases |es|
  {
    if es != [] {
      StepKeepsVersion(db, v, es[0]);
      RerunsAreInvisible(Step(db, es[0]), NextVersion(db, v, es[0]), es[1..]);
      if es[0].Apply? && es[0].k <= v {
        RerunIsInvisible(db, v, es[0].k, false);
      } else {
        var rest := Once(Step(db, es[0]), NextVersion(db, v, es[0]), es[1..]);
        assert ([es[0]] + rest)[0] == es[0] && ([es[0]] + rest)[1..] == rest;
      }
    }
  }

  lemma KeepsAllTransitive(a: Database, b: Database, c: Database)
    requires KeepsAll(a, b) && KeepsAll(b, c)
    ensures KeepsAll(a, c)
  {
    forall n | n in a.tables ensures n in c.tables && Keeps(a.tables[n], c.tables[n]) {
      assert Keeps(a.tables[n], b.tables[n]) && Keeps(b.tables[n], c.tables[n]);
    }
  }

  lemma ApplyKeepsAll(db: Database, v: int, e: Event)
    requires AtVersion(db, v) && Legal(v, e) && e.Apply?
    ensures KeepsAll(db, Step(db, e))
  {
    if e.k == v + 1 {
      ForwardSucceeds(db, v + 1);
    } else {
      RerunIsInvisible(db, v, e.k, false);
    }
  }

  /** Whatever mix of forward steps and re-runs: no value of any row is lost or reset. */
  lemma UpgradeKeepsEverything(db: Database, v: int, es: seq<Event>)
    requires AtVersion(db, v) && LegalHistory(db, v, es) && forall e :: e in es ==> e.Apply?
    ensures KeepsAll(db, Replay(db, es))
    decreases |es|
  {
    if es != [] {
      StepKeepsVersion(db, v, es[0]);
      var d := Step(db, es[0]);
      ApplyKeepsAll(db, v, es[0]);
      UpgradeKeepsEverything(d, NextVersion(db, v, es[0]), es[1..]);
      KeepsAllTransitive(db, d, Replay(d, es[1..]));
    }
  }

  /******* Whole upgrades on a connection *******/

  lemma KeepsAllReflexive(db: Database)
    ensures KeepsAll(db, db)
  {
  }

  /** In a transaction the OFF/ON bracket is inert: every step up to V016 goes through. */
  method UpgradeInTransaction(c: Connection, v: int)
    requires AtVersion(c.db, v) && c.inTx && !c.enforce
    modifies c
    ensures AtVersion(c.db, 16) && !c.enforce
    ensures KeepsAll(old(c.db), c.db)
  {
    hide AtVersion, KeepsAll, Sound, Up, Down;
    VersionRange(c.db, v);
    var k := v;
    KeepsAllReflexive(c.db);
    while k < 16
      invariant 9 <= k <= 16 && !c.enforce
      invariant AtVersion(c.db, k)
      invariant KeepsAll(old(c.db), c.db)
    {
      ghost var before := c.db;
      SoundAt(c.db, k);
      ForwardSucceeds(c.db, k + 1);
      var _ := c.RunStep(k + 1, true);
      KeepsAllTransitive(old(c.db), before, c.db);
      k := k + 1;
    }
  }

  lemma VersionRange(db: Database, v: int)
    requires AtVersion(db, v)
    ensures 9 <= v <= 16
  {
  }

  /**
   How far an upgrade outside a transaction gets: V010 and V015 never look at the enforcement
   flag; any other step needs it off, and leaves it on.
   */
  function Stop(v: int, enforce: bool): int
    requires 9 <= v <= 16
    decreases 16 - v
  {
    if v == 16 then 16
    else if v == 9 || v == 14 then Stop(v + 1, enforce)
    else if enforce then v
    else Stop(v + 1, true)
  }

  /** Outside a transaction the upgrade runs to `Stop`, is refused there, and keeps every row. */
  method UpgradeAutocommit(c: Connection, v: int) returns (reached: int)
    requires AtVersion(c.db, v) && !c.inTx
    modifies c
    ensures 9 <= v <= 16 && reached == Stop(v, old(c.enforce))
    ensures AtVersion(c.db, reached)
    ensures KeepsAll(old(c.db), c.db)
    ensures reached < 16 ==> c.enforce && Up(c.db, true, reached + 1) == None
  {
    hide AtVersion, KeepsAll, Sound, Up, Down;
    VersionRange(c.db, v);
    reached := v;
    KeepsAllReflexive(c.db);
    while reached < 16
      invariant v <= reached <= 16
      invariant AtVersion(c.db, reached)
      invariant KeepsAll(old(c.db), c.db)
      invariant Stop(reached, c.enforce) == Stop(v, old(c.enforce))
    {
      ghost var before := c.db;
      SoundAt(c.db, reached);
      AutocommitStep(c.db, c.enforce, reached);
      var ok := c.RunStep(reached + 1, true);
      if !ok {
        return;
      }
      KeepsAllTransitive(old(c.db), before, c.db);
      reached := reached + 1;
    }
  }

  /** A due step is refused because enforcement is on, or succeeds and keeps everything. */
  lemma AutocommitStep(db: Database, enforce: bool, v: int)
    requires AtVersion(db, v) && v < 16
    ensures 9 <= v
    ensures var k := v + 1;
      && (Brackets(db, k, true) <==> k != 10 && k != 15)
      && (enforce && k != 10 && k != 15 ==> Up(db, enforce, k) == None)
      && (!enforce || k == 10 || k == 15 ==>
            && Up(db, enforce, k).Some? && AtVersion(Up(db, enforce, k).value, k)
            && KeepsAll(db, Up(db, enforce, k).value))
  {
    hide KeepsAll, Rebuild, WithUsage, Shape, Consistent, Created;
    if v >= 10 {
      GuardIff(db, v, v + 1);
    }
    ForwardSucceeds(db, v + 1);
    if enforce && v >= 10 && v + 1 != 15 {
      EnforcementRefuses(db, v, v + 1);
    }
  }

  /******* Refused rollbacks *******/

  lemma ObsoleteDoesNotSwap(db: Database, k: int)
    requires 11 <= k <= 16 && AtVersion(db, k) && Changed(k) in db.tables && Obsolete(db, k)
    ensures !Swaps(Prepared(db, k, false), PlanFor(k, false))
  {
    hide PlanFor, Faithful, RunsSchemaAt, StepsSchemaAt, IndexesAt, CopyFits, NoForbiddenValue;
    SchemasAround(db, k, false);
    ObsoleteIff(db, k);
    CopyFitsIff(PlanFor(k, false), db.tables[Changed(k)]);
  }

  /** V013, V014 and V016 count the rows that forbid the rollback; V011 and V012 find out by copying. */
  lemma CountedIff(db: Database, k: int)
    requires 11 <= k <= 16 && AtVersion(db, k) && Changed(k) in db.tables && Obsolete(db, k)
    ensures k != 15
    ensures RollbackBlocked(db, k) <==> k >= 13
  {
    hide RunsSchemaAt, StepsSchemaAt, IndexesAt, Consistent;
  }

  lemma StartDiffersIff(db: Database, k: int)
    requires 11 <= k <= 16 && AtVersion(db, k)
    ensures Prepared(db, k, false) != db <==> k == 13
  {
    hide RunsSchemaAt, StepsSchemaAt, Consistent;
    if k == 13 {
      assert OneAwaiting in db.indexes;
    }
  }

  lemma BegunDiffers(db: Database, k: int)
    requires 11 <= k <= 16 && AtVersion(db, k) && k != 13
    ensures Begun(Prepared(db, k, false), PlanFor(k, false)) != db
  {
    hide RunsSchemaAt, StepsSchemaAt, Consistent, PlanFor, IndexesAt;
    PlanSchemas(k, false);
    var p := PlanFor(k, false);
    assert p.scratch !in db.tables && p.scratch in Begun(db, p).tables;
  }

  /**
   A refused rollback leaves the database unchanged exactly in a transaction, or for V014 and
   V016, which count first, or with enforcement on for every step but V013. In the other cases
   V013 has lost its unique index, and V011 and V012 leave an empty scratch table behind.
   */
  lemma RefusalIsFreeIff(db: Database, enforce: bool, k: int)
    requires 11 <= k <= 16 && AtVersion(db, k) && Changed(k) in db.tables && (enforce || Obsolete(db, k))
    ensures Early(db, enforce, k)
    ensures LeftBehind(db, enforce, k) == db <==> k == 14 || k == 16 || (enforce && k != 13)
  {
    hide AtVersion, Obsolete, RollbackBlocked, Swaps, Begun, Prepared, PlanFor;
    StartDiffersIff(db, k);
    if !enforce {
      ObsoleteDoesNotSwap(db, k);
      CountedIff(db, k);
    }
    if k != 13 {
      BegunDiffers(db, k);
    }
  }

  /** One in-order rollback on a connection: success, and the state after a refusal, exactly. */
  method RollBack(c: Connection, k: int) returns (ok: bool)
    requires 11 <= k <= 16 && AtVersion(c.db, k)
    modifies c
    ensures Changed(k) in old(c.db).tables
    ensures ok <==> !old(c.enforce) && !Obsolete(old(c.db), k)
    ensures ok ==> AtVersion(c.db, k - 1)
    ensures !ok ==> (c.db == old(c.db) <==> c.inTx || k == 14 || k == 16 || (old(c.enforce) && k != 13))
  {
    hide AtVersion, Obsolete, RollbackBlocked, Swaps, LeftBehind, PlanFor, Sound, Outcome, Early, Down, Rebuild;
    SoundAt(c.db, k);
    RollbackIff(c.db, k);
    if c.enforce {
      EnforcementRefusesRollback(c.db, k, k);
    }
    if c.enforce || Obsolete(c.db, k) {
      RefusalIsFreeIff(c.db, c.enforce, k);
    }
    ok := c.RunStep(k, false);
  }
}
