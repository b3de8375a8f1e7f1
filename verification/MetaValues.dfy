/**
 What the rows of the meta-skill ledger hold, value by value: the columns a step adds start
 with the defaults of its DDL, a rollback keeps the columns that stay, the CHECK sets accept
 exactly the words of their version, and runtime writes do to the rows what SQL says.
 */
module MetaValues {
  import opened Common
  import opened MetaSchema
  import opened MetaRebuild
  import opened MetaMigrations
  import opened MetaSteps
  import opened MetaChain
  import opened MetaRuns

  /******* New columns *******/

  lemma InSecond<T>(a: seq<T>, b: seq<T>, x: T)
    requires x in b
    ensures x in a + b
  {
  }

  lemma ClarifyColumnsAre(c: Column)
    ensures c in CLARIFY_COLUMNS <==>
      || c == AwaitingStepId || c == AwaitingSchemaJson || c == AwaitingSince
      || c == AwaitingFilledJson || c == StepOutputsJson || c == ParseFailureCount
  {
    assert CLARIFY_COLUMNS[0] == AwaitingStepId && CLARIFY_COLUMNS[1] == AwaitingSchemaJson;
    assert CLARIFY_COLUMNS[2] == AwaitingSince && CLARIFY_COLUMNS[3] == AwaitingFilledJson;
    assert CLARIFY_COLUMNS[4] == StepOutputsJson && CLARIFY_COLUMNS[5] == ParseFailureCount;
  }

  lemma RunColumnsAreOlder(c: Column)
    requires c == AwaitingStepId || c == AwaitingSchemaJson || c == AwaitingSince
          || c == AwaitingFilledJson || c == StepOutputsJson || c == ParseFailureCount
    ensures c !in RUN_COLUMNS
  {
  }

  lemma ColumnsAt13()
    ensures RunsSchemaAt(13).columns == RUN_COLUMNS + CLARIFY_COLUMNS
  {
  }

  lemma ClarifyColumnsAreAdded(c: Column)
    requires c in CLARIFY_COLUMNS
    ensures c in RunsSchemaAt(13).columns && c !in RUN_COLUMNS
  {
    hide RunsSchemaAt;
    ClarifyColumnsAre(c);
    RunColumnsAreOlder(c);
    ColumnsAt13();
    InSecond(RUN_COLUMNS, CLARIFY_COLUMNS, c);
  }

  lemma ClarifyDefault(c: Column)
    requires c in CLARIFY_COLUMNS
    ensures Default(RunsSchemaAt(13), c) == if c == ParseFailureCount then Int(0) else Null
  {
  }

  lemma ClarifyCopies()
    ensures Targets(PlanFor(13, true).copy, PlanFor(13, true).schema) == RUN_COLUMNS
  {
  }

  lemma ClarifyColumnStarts(db: Database, i: nat, c: Column)
    requires AtVersion(db, 12) && i < |db.tables[Runs].rows| && c in CLARIFY_COLUMNS
    ensures Runs in db.tables && Up(db, false, 13).Some? && Runs in Up(db, false, 13).value.tables
    ensures var after := Up(db, false, 13).value.tables[Runs].rows;
      && |after| == |db.tables[Runs].rows|
      && c in after[i] && after[i][c] == if c == ParseFailureCount then Int(0) else Null
  {
    hide Consistent, RunsSchemaAt, StepsSchemaAt, IndexesAt, Default, Faithful, PlanFor, Targets;
    ForwardRebuild(db, 13);
    SchemasAround(db, 13, true);
    TableOfConsistent(db, Runs);
    CopiedByName(PlanFor(13, true), db.tables[Runs], i);
    ClarifyColumnsAreAdded(c);
    ClarifyDefault(c);
    ClarifyCopies();
  }

  /** V013: nothing is awaited and nothing has failed to parse; the rest of the row is as it was. */
  lemma ClarifyStartsEmpty(db: Database, i: nat)
    requires AtVersion(db, 12) && i < |db.tables[Runs].rows|
    ensures Up(db, false, 13).Some? && Runs in Up(db, false, 13).value.tables
    ensures var before, after := db.tables[Runs].rows, Up(db, false, 13).value.tables[Runs].rows;
      && |after| == |before|
      && (forall c :: c in before[i] ==> c in after[i] && after[i][c] == before[i][c])
      && AwaitingStepId in after[i] && after[i][AwaitingStepId] == Null
      && AwaitingSchemaJson in after[i] && after[i][AwaitingSchemaJson] == Null
      && AwaitingSince in after[i] && after[i][AwaitingSince] == Null
      && AwaitingFilledJson in after[i] && after[i][AwaitingFilledJson] == Null
      && StepOutputsJson in after[i] && after[i][StepOutputsJson] == Null
      && ParseFailureCount in after[i] && after[i][ParseFailureCount] == Int(0)
  {
    hide AtVersion, Up;
    ClarifyNames();
    ClarifyColumnStarts(db, i, AwaitingStepId);
    forall c | c in CLARIFY_COLUMNS
      ensures var after := Up(db, false, 13).value.tables[Runs].rows;
        c in after[i] && after[i][c] == if c == ParseFailureCount then Int(0) else Null
    {
      ClarifyColumnStarts(db, i, c);
    }
    ForwardSucceeds(db, 13);
    RunsKept(db, Up(db, false, 13).value);
  }

  lemma ClarifyNames()
    ensures AwaitingStepId in CLARIFY_COLUMNS && AwaitingSchemaJson in CLARIFY_COLUMNS
    ensures AwaitingSince in CLARIFY_COLUMNS && AwaitingFilledJson in CLARIFY_COLUMNS
    ensures StepOutputsJson in CLARIFY_COLUMNS && ParseFailureCount in CLARIFY_COLUMNS
  {
    ClarifyColumnsAre(AwaitingStepId);
    ClarifyColumnsAre(AwaitingSchemaJson);
    ClarifyColumnsAre(AwaitingSince);
    ClarifyColumnsAre(AwaitingFilledJson);
    ClarifyColumnsAre(StepOutputsJson);
    ClarifyColumnsAre(ParseFailureCount);
  }

  lemma RunsKept(db: Database, d: Database)
    requires KeepsAll(db, d) && Runs in db.tables
    ensures Runs in d.tables && Keeps(db.tables[Runs], d.tables[Runs])
  {
  }

  /** V015: no usage yet; the rest of the row is as it was. */
  lemma UsageStartsEmpty(db: Database, i: nat)
    requires AtVersion(db, 14) && i < |db.tables[Steps].rows|
    ensures Up(db, false, 15).Some? && Steps in Up(db, false, 15).value.tables
    ensures var before, after := db.tables[Steps].rows, Up(db, false, 15).value.tables[Steps].rows;
      && |after| == |before|
      && UsageJson in after[i] && after[i][UsageJson] == Text("{}")
      && (forall c :: c in before[i] ==> c in after[i] && after[i][c] == before[i][c])
  {
    hide Consistent, RunsSchemaAt, StepsSchemaAt, IndexesAt, Up;
    V015Adds(db);
  }

  /** A rollback keeps every row, in order, and every value of a column that stays. */
  lemma RollbackKeepsValues(db: Database, k: int, i: nat, c: Column)
    requires 11 <= k <= 16 && AtVersion(db, k) && Changed(k) in db.tables && Down(db, false, k).Some?
    requires i < |db.tables[Changed(k)].rows| && c in SchemaAt(Changed(k), k - 1).columns
    ensures var d := Down(db, false, k).value;
      && Changed(k) in d.tables && |d.tables[Changed(k)].rows| == |db.tables[Changed(k)].rows|
      && c in db.tables[Changed(k)].rows[i] && c in d.tables[Changed(k)].rows[i]
      && d.tables[Changed(k)].rows[i][c] == db.tables[Changed(k)].rows[i][c]
      && forall n :: n in db.tables && n != Changed(k) ==> n in d.tables && d.tables[n] == db.tables[n]
  {
    hide Consistent, RunsSchemaAt, StepsSchemaAt, IndexesAt, Faithful, PlanFor, Obsolete;
    RollbackIff(db, k);
    SchemasAround(db, k, false);
    TableOfConsistent(db, Changed(k));
    BackwardCarriesAll(k);
    CopiedByName(PlanFor(k, false), db.tables[Changed(k)], i);
  }

  /******* The CHECK sets *******/

  /** Which words the columns of a run accept at version `v`. */
  lemma AcceptedRunWords(v: int, w: Word)
    requires 10 <= v <= 16
    ensures var s := RunsSchemaAt(v);
      && s.allowed.Keys == {TriggeredBy, Status}
      && (w in s.allowed[TriggeredBy] <==>
            || w == HardTakeover || w == SoftMetaInvoke
            || (v >= 11 && (w == AutoCron || w == AutoDream))
            || (v >= 16 && w == ManualCommand))
      && (w in s.allowed[Status] <==>
            || w == Running || w == Ok || w == Failed || w == Cancelled
            || (v >= 13 && (w == AwaitingUser || w == Expired)))
  {
    hide *;
    RunWords(v);
    WordSetsAre(w);
  }

  lemma RunWords(v: int)
    requires 10 <= v <= 16
    ensures RunsSchemaAt(v).allowed.Keys == {TriggeredBy, Status}
    ensures RunsSchemaAt(v).allowed[TriggeredBy] ==
      if v >= 16 then TRIGGERS_V016 else if v >= 11 then TRIGGERS_V011 else TRIGGERS_V010
    ensures RunsSchemaAt(v).allowed[Status] == if v >= 13 then STATUS_V013 else STATUS_V010
  {
  }

  lemma WordSetsAre(w: Word)
    ensures w in TRIGGERS_V010 <==> w == HardTakeover || w == SoftMetaInvoke
    ensures w in TRIGGERS_V011 <==> w in TRIGGERS_V010 || w == AutoCron || w == AutoDream
    ensures w in TRIGGERS_V016 <==> w in TRIGGERS_V011 || w == ManualCommand
    ensures w in STATUS_V010 <==> w == Running || w == Ok || w == Failed || w == Cancelled
    ensures w in STATUS_V013 <==> w in STATUS_V010 || w == AwaitingUser || w == Expired
  {
  }

  /** Which words the columns of a step accept at version `v`. */
  lemma AcceptedStepWords(v: int, w: Word)
    requires 10 <= v <= 16
    ensures var s := StepsSchemaAt(v);
      && s.allowed.Keys == {StepKind, Status}
      && (w in s.allowed[StepKind] <==>
            || w == Agent || w == LlmClassify || w == ToolCall || w == SkillExec
            || (v >= 12 && w == LlmChat)
            || (v >= 14 && w == UserInput))
      && (w in s.allowed[Status] <==> w == Running || w == Ok || w == Failed || w == Substituted)
  {
    hide *;
    StepWords(v);
    KindSetsAre(w);
  }

  lemma StepWords(v: int)
    requires 10 <= v <= 16
    ensures StepsSchemaAt(v).allowed.Keys == {StepKind, Status}
    ensures StepsSchemaAt(v).allowed[StepKind] ==
      if v >= 14 then KINDS_V014 else if v >= 12 then KINDS_V012 else KINDS_V010
    ensures StepsSchemaAt(v).allowed[Status] == STEP_STATUS
  {
  }

  lemma KindSetsAre(w: Word)
    ensures w in KINDS_V010 <==> w == Agent || w == LlmClassify || w == ToolCall || w == SkillExec
    ensures w in KINDS_V012 <==> w in KINDS_V010 || w == LlmChat
    ensures w in KINDS_V014 <==> w in KINDS_V012 || w == UserInput
    ensures w in STEP_STATUS <==> w == Running || w == Ok || w == Failed || w == Substituted
  {
  }

  /** The words that step `k` brought, written out. */
  predicate BroughtBy(k: int, r: Row) {
    if k == 11 then Says(r, TriggeredBy, AutoCron) || Says(r, TriggeredBy, AutoDream)
    else if k == 12 then Says(r, StepKind, LlmChat)
    else if k == 13 then Says(r, Status, AwaitingUser) || Says(r, Status, Expired)
    else if k == 14 then Says(r, StepKind, UserInput)
    else if k == 16 then Says(r, TriggeredBy, ManualCommand)
    else false
  }

  predicate Says(r: Row, c: Column, w: Word) {
    c in r && r[c] == Lit(w)
  }

  lemma HoldsIff(t: Table, k: int)
    requires 11 <= k <= 16
    ensures Holds(t, Added(k).0, Added(k).1) <==> exists r: Row :: r in t.rows && BroughtBy(k, r)
  {
    if Holds(t, Added(k).0, Added(k).1) {
      var r: Row :| r in t.rows && Added(k).0 in r && r[Added(k).0].Lit? && r[Added(k).0].word in Added(k).1;
      assert BroughtBy(k, r);
    }
    if r: Row :| r in t.rows && BroughtBy(k, r) {
      assert Added(k).0 in r && r[Added(k).0].Lit? && r[Added(k).0].word in Added(k).1;
    }
  }

  /** An in-order rollback is refused exactly by a row that uses a word of the step. */
  lemma RollbackRefusedBy(db: Database, k: int)
    requires 11 <= k <= 16 && AtVersion(db, k)
    ensures Changed(k) in db.tables
    ensures Down(db, false, k) == None <==> exists r: Row :: r in db.tables[Changed(k)].rows && BroughtBy(k, r)
  {
    hide Consistent, RunsSchemaAt, StepsSchemaAt, IndexesAt, Holds, BroughtBy, Outcome;
    RollbackIff(db, k);
    HoldsIff(db.tables[Changed(k)], k);
  }

  /******* Runtime writes *******/

  /** A step row of the run: it names the run, and the name is not NULL. */
  predicate ChildOf(step: Row, run: Row) {
    RunId in step && RunId in run && step[RunId] != Null && step[RunId] == run[RunId]
  }

  lemma {:induction false} SurvivorsAre(steps: seq<Row>, run: Row, s: Row)
    ensures multiset(Survivors(steps, [run]))[s] == if ChildOf(s, run) then 0 else multiset(steps)[s]
  {
    if steps != [] {
      SurvivorsAre(steps[1..], run, s);
      assert steps == [steps[0]] + steps[1..];
      OneParent(steps[0], run);
    }
  }

  lemma OneParent(step: Row, run: Row)
    ensures RunId in step && step[RunId] != Null && HasParent([run], step) <==> ChildOf(step, run)
  {
    if ChildOf(step, run) {
      assert run in [run];
    }
  }

  /** `few` are some of the rows `many`, in their order. */
  ghost predicate Among(few: seq<Row>, many: seq<Row>, at: seq<nat>) {
    && |at| == |few|
    && (forall k :: 0 <= k < |at| ==> at[k] < |many| && many[at[k]] == few[k])
    && (forall k, l :: 0 <= k < l < |at| ==> at[k] < at[l])
  }

  lemma AmongLater(few: seq<Row>, many: seq<Row>, at: seq<nat>, moved: seq<nat>)
    requires many != [] && Among(few, many[1..], at)
    requires |moved| == |at| && forall k :: 0 <= k < |at| ==> moved[k] == at[k] + 1
    ensures Among(few, many, moved) && Among([many[0]] + few, many, [0] + moved)
  {
    assert forall k :: 0 <= k < |at| ==> many[moved[k]] == many[1..][at[k]];
  }

  lemma {:induction false} SurvivorsAmong(steps: seq<Row>, runs: seq<Row>) returns (at: seq<nat>)
    ensures Among(Survivors(steps, runs), steps, at)
  {
    hide Among, HasParent;
    if steps == [] {
      assert Among([], [], []) by { NoneAmong(); }
      at := [];
    } else {
      var rest := SurvivorsAmong(steps[1..], runs);
      var moved := seq(|rest|, k requires 0 <= k < |rest| => rest[k] + 1);
      AmongLater(Survivors(steps[1..], runs), steps, rest, moved);
      at := if Survivors(steps, runs) == Survivors(steps[1..], runs) then moved else [0] + moved;
    }
  }

  lemma NoneAmong()
    ensures Among([], [], [])
  {
  }

  lemma WithoutAmong(rows: seq<Row>, i: nat) returns (at: seq<nat>)
    requires i < |rows|
    ensures Among(Without(rows, i), rows, at)
  {
    at := seq(|rows| - 1, k requires 0 <= k < |rows| - 1 => if k < i then k else k + 1);
  }

  /** Fewer rows satisfy the constraints of a table all the more. */
  lemma AmongIsOk(s: Schema, few: seq<Row>, many: seq<Row>, at: seq<nat>)
    requires Among(few, many, at) && TableOk(Table(s, many))
    ensures TableOk(Table(s, few))
    ensures AwaitingUnique(many) ==> AwaitingUnique(few)
  {
    hide Admissible, Clash, Awaiting;
    forall r | r in few ensures Admissible(s, r) {
      var k :| 0 <= k < |few| && few[k] == r;
      assert many[at[k]] in many;
    }
    forall k, l | 0 <= k < l < |few| ensures !Clash(s.key, few[k], few[l]) {
      assert !Clash(s.key, many[at[k]], many[at[l]]);
    }
    if AwaitingUnique(many) {
      forall k, l | 0 <= k < l < |few| && Awaiting(few[k]) && Awaiting(few[l])
        ensures !Clash({SessionKey}, few[k], few[l])
      {
        assert Awaiting(many[at[k]]) && Awaiting(many[at[l]]);
      }
    }
  }

  /** A step that survives has its parent among the runs that stay. */
  lemma SurvivorHasParent(steps: seq<Row>, runs: seq<Row>, i: nat, s: Row)
    requires i < |runs| && s in Survivors(steps, [runs[i]]) && (forall r :: r in steps ==> HasParent(runs, r))
    ensures HasParent(Without(runs, i), s)
  {
    SurvivorsAre(steps, runs[i], s);
    assert s in multiset(Survivors(steps, [runs[i]]));
    assert s in multiset(steps) && s in steps && !ChildOf(s, runs[i]);
    if s[RunId] != Null {
      var r :| r in runs && RunId in r && r[RunId] == s[RunId];
      var j :| 0 <= j < |runs| && runs[j] == r;
      assert j != i;
      assert Without(runs, i)[if j < i then j else j - 1] == r;
    }
  }

  lemma DeleteIsConsistent(db: Database, i: nat)
    requires Consistent(db) && db.tables.Keys == {Runs, Steps} && i < |db.tables[Runs].rows|
    requires db.tables[Runs].schema.parent == None && db.tables[Steps].schema.parent == Some(Runs)
    requires forall x :: x in db.indexes ==> db.indexes[x].UniqueAwaiting? ==> db.indexes[x].on == Runs
    ensures Consistent(Attempted(db, DeleteRun(i)))
  {
    var runs, steps := db.tables[Runs], db.tables[Steps];
    var d := Attempted(db, DeleteRun(i));
    assert TableOk(runs) && TableOk(steps);
    var kept := WithoutAmong(runs.rows, i);
    var left := SurvivorsAmong(steps.rows, [runs.rows[i]]);
    AmongIsOk(runs.schema, Without(runs.rows, i), runs.rows, kept);
    AmongIsOk(steps.schema, Survivors(steps.rows, [runs.rows[i]]), steps.rows, left);
    hide TableOk, AwaitingUnique, HasParent, Survivors, Without;
    forall x | x in d.indexes ensures IndexHonoured(d, d.indexes[x]) {
      assert IndexHonoured(db, db.indexes[x]);
    }
    assert ParentRows(db, Steps) == runs.rows && ParentRows(d, Steps) == Without(runs.rows, i);
    forall r | r in d.tables[Steps].rows ensures HasParent(Without(runs.rows, i), r) {
      SurvivorHasParent(steps.rows, runs.rows, i, r);
    }
  }

  lemma OnlyRunsAwait(v: int)
    ensures forall x :: x in IndexesAt(v) && IndexesAt(v)[x].UniqueAwaiting? ==> IndexesAt(v)[x].on == Runs
  {
  }

  /** A run can always be deleted, and takes exactly its own steps along, however often each row occurs. */
  lemma RunDeleteTakesItsSteps(db: Database, v: int, i: nat, s: Row)
    requires AtVersion(db, v) && v >= 10 && i < |db.tables[Runs].rows|
    ensures var runs, d := db.tables[Runs].rows, Written(db, DeleteRun(i));
      && d.tables.Keys == {Runs, Steps} && d.indexes == db.indexes
      && d.tables[Runs].rows == runs[..i] + runs[i + 1..]
      && multiset(d.tables[Steps].rows)[s] == (if ChildOf(s, runs[i]) then 0 else multiset(db.tables[Steps].rows)[s])
  {
    OnlyRunsAwait(v);
    hide Consistent, IndexesAt;
    DeleteIsConsistent(db, i);
    SurvivorsAre(db.tables[Steps].rows, db.tables[Runs].rows[i], s);
  }

  /** The rows that a write of a single row asks for. */
  predicate Asks(db: Database, d: Database, w: Write) {
    && db.tables.Keys == d.tables.Keys == {Runs, Steps} && d.indexes == db.indexes
    && d.tables[Runs].schema == db.tables[Runs].schema && d.tables[Steps].schema == db.tables[Steps].schema
    && var runs, steps := db.tables[Runs].rows, db.tables[Steps].rows;
       match w
       case InsertRun(r) => d.tables[Runs].rows == runs + [r] && d.tables[Steps].rows == steps
       case UpdateRun(i, r) => i < |runs| && d.tables[Runs].rows == runs[i := r] && d.tables[Steps].rows == steps
       case DeleteRun(i) => false
       case InsertStep(r) => d.tables[Runs].rows == runs && d.tables[Steps].rows == steps + [r]
       case UpdateStep(i, r) => i < |steps| && d.tables[Runs].rows == runs && d.tables[Steps].rows == steps[i := r]
       case DeleteStep(i) =>
         i < |steps| && d.tables[Runs].rows == runs && d.tables[Steps].rows == steps[..i] + steps[i + 1..]
  }

  /** Such a write is performed as asked, or not at all. */
  lemma WriteIsAllOrNothing(db: Database, v: int, w: Write)
    requires AtVersion(db, v) && v >= 10 && Written(db, w) != db && !w.DeleteRun?
    ensures Asks(db, Written(db, w), w)
  {
    hide Consistent, RunsSchemaAt, StepsSchemaAt, IndexesAt;
  }

  /** It is performed whenever what it asks for satisfies every constraint. */
  lemma WriteGoesThrough(db: Database, v: int, w: Write, d: Database)
    requires AtVersion(db, v) && v >= 10 && Asks(db, d, w) && Consistent(d)
    ensures Written(db, w) == d
  {
    hide Consistent, RunsSchemaAt, StepsSchemaAt, IndexesAt;
    assert d.tables == Attempted(db, w).tables;
    assert d == Attempted(db, w);
  }

  /******* The index loops *******/

  /** Indexes are created once: a loop that meets an index it has made raises, but for the unique one. */
  lemma IndexLoopTwice(d: Database)
    requires Runs in d.tables && ByName in d.indexes
    ensures CreateIndexes(d, RUN_INDEXES) == None && CreateIndexes(d, RUN_INDEXES + [AWAITING_INDEX]) == None
    ensures OneAwaiting in d.indexes ==> CreateIndexes(d, [AWAITING_INDEX]) == Some(d)
  {
    assert RUN_INDEXES[0].0 == ByName;
    assert (RUN_INDEXES + [AWAITING_INDEX])[0] == RUN_INDEXES[0];
  }
}
