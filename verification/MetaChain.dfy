/**
 The chain V010 to V016 step by step: success, what is kept, rollback, round trip.
 */
module MetaChain {
  import opened Common
  import opened MetaSchema
  import opened MetaRebuild
  import opened MetaMigrations
  import opened MetaSteps

  /******* Indexes *******/

  lemma Peel(d: Database, todo: seq<(IndexName, Index)>)
    requires todo != [] && todo[0].0 !in d.indexes && IndexHonoured(d, todo[0].1)
    ensures CreateIndexes(d, todo) == CreateIndexes(d.(indexes := d.indexes[todo[0].0 := todo[0].1]), todo[1..])
  {
  }

  const FOUR: map<IndexName, Index> := map[
    ByName := Plain(Runs, [MetaSkillName, StartedAtMs]),
    ByStatus := Plain(Runs, [Status, StartedAtMs]),
    BySession := Plain(Runs, [SessionKey, StartedAtMs]),
    ByStart := Plain(Runs, [StartedAtMs])]

  lemma FourIndexes(d: Database, more: seq<(IndexName, Index)>)
    requires Runs in d.tables && d.indexes.Keys !! FOUR.Keys
    ensures CreateIndexes(d, RUN_INDEXES + more) == CreateIndexes(d.(indexes := d.indexes + FOUR), more)
  {
    var todo := RUN_INDEXES + more;
    var d1 := d.(indexes := d.indexes[ByName := RUN_INDEXES[0].1]);
    var d2 := d1.(indexes := d1.indexes[ByStatus := RUN_INDEXES[1].1]);
    var d3 := d2.(indexes := d2.indexes[BySession := RUN_INDEXES[2].1]);
    var d4 := d3.(indexes := d3.indexes[ByStart := RUN_INDEXES[3].1]);
    Peel(d, todo);
    Peel(d1, todo[1..]);
    assert todo[1..][1..] == todo[2..];
    Peel(d2, todo[2..]);
    assert todo[2..][1..] == todo[3..];
    Peel(d3, todo[3..]);
    assert todo[3..][1..] == more;
    assert d4.indexes == d.indexes + FOUR;
  }

  lemma FourAt10()
    ensures map[ByStepStatus := Plain(Steps, [Status])] + FOUR == IndexesAt(10)
    ensures FOUR[ByStepStatus := Plain(Steps, [Status])] == IndexesAt(10)
  {
  }

  lemma RunIndexes(d: Database, unique: bool)
    requires Runs in d.tables && d.indexes == map[ByStepStatus := Plain(Steps, [Status])]
    requires unique ==> AwaitingUnique(d.tables[Runs].rows)
    ensures CreateIndexes(d, if unique then RUN_INDEXES + [AWAITING_INDEX] else RUN_INDEXES)
         == Some(d.(indexes := IndexesAt(if unique then 13 else 10)))
  {
    FourAt10();
    if unique {
      FourIndexes(d, [AWAITING_INDEX]);
      Peel(d.(indexes := IndexesAt(10)), [AWAITING_INDEX]);
    } else {
      FourIndexes(d, []);
      assert RUN_INDEXES + [] == RUN_INDEXES;
    }
  }

  lemma StepIndex(d: Database, v: int)
    requires Steps in d.tables && d.indexes == IndexesAt(v) - {ByStepStatus}
    ensures CreateIndexes(d, [STEP_INDEX]) == Some(d.(indexes := IndexesAt(v)))
  {
    Peel(d, [STEP_INDEX]);
    assert d.indexes[ByStepStatus := STEP_INDEX.1] == IndexesAt(v);
  }

  lemma IndexesOffAt(v: int)
    ensures IndexesOff(IndexesAt(v), Steps) == IndexesAt(v) - {ByStepStatus}
    ensures IndexesOff(IndexesAt(v), Runs) == map[ByStepStatus := Plain(Steps, [Status])]
    ensures IndexesOff(IndexesAt(v) - {OneAwaiting}, Runs) == map[ByStepStatus := Plain(Steps, [Status])]
  {
  }

  /******* A rebuild at the right version *******/

  predicate Rebuilds(k: int, up: bool) {
    11 <= k <= 16 && !(k == 15 && up)
  }

  function Source(k: int, up: bool): int { if up then k - 1 else k }
  function Target(k: int, up: bool): int { if up then k else k - 1 }

  lemma NoIndexOnScratch(v: int)
    ensures forall x :: x in IndexesAt(v) ==> !IsScratch(IndexesAt(v)[x].on)
  {
  }

  lemma StepSchemaKeyed(v: int)
    ensures StepKeyed(StepsSchemaAt(v).columns)
    ensures RunId in StepsSchemaAt(v).columns && StepId in StepsSchemaAt(v).columns
    ensures StepsSchemaAt(v).parent == Some(Runs) && RunsSchemaAt(v).parent == None
  {
    assert STEP_COLUMNS[0] == RunId && STEP_COLUMNS[1] == StepId;
  }

  lemma SoundFrom(db: Database)
    requires db.tables.Keys == {Runs, Steps}
    requires db.tables[Runs].schema.parent == None && db.tables[Steps].schema.parent == Some(Runs)
    requires forall x :: x in db.indexes ==> !IsScratch(db.indexes[x].on)
    requires TableOk(db.tables[Steps]) && StepKeyed(db.tables[Steps].schema.columns)
    ensures Sound(db)
  {
    var columns := db.tables[Steps].schema.columns;
    assert columns[0] in columns && columns[1] in columns;
    RowsHave(db.tables[Steps], RunId);
    RowsHave(db.tables[Steps], StepId);
  }

  lemma SoundAt(db: Database, v: int)
    requires AtVersion(db, v)
    ensures Sound(db)
  {
    if v > 9 {
      hide Consistent, IndexesAt, RunsSchemaAt, StepsSchemaAt, TableOk, StepKeyed, Sound;
      NoIndexOnScratch(v);
      StepSchemaKeyed(v);
      TableOfConsistent(db, Steps);
      SoundFrom(db);
    }
  }

  lemma CarriesAwaiting(k: int, up: bool)
    requires k == 16 || (k == 13 && up)
    ensures var p := PlanFor(k, up);
      Status in Targets(p.copy, p.schema) && SessionKey in Targets(p.copy, p.schema)
  {
    assert RUN_COLUMNS[8] == Status && RUN_COLUMNS[5] == SessionKey;
    assert (RUN_COLUMNS + CLARIFY_COLUMNS)[8] == Status && (RUN_COLUMNS + CLARIFY_COLUMNS)[5] == SessionKey;
  }

  /** Before V013 no status can be awaiting_user; from then on the index itself says so. */
  lemma AwaitingUniqueAt(db: Database, v: int)
    requires AtVersion(db, v) && v >= 10
    ensures AwaitingUnique(db.tables[Runs].rows)
  {
    if v < 13 {
      NoneAwaits(db.tables[Runs]);
    } else {
      assert db.indexes[OneAwaiting] == UniqueAwaiting(Runs);
      assert IndexHonoured(db, db.indexes[OneAwaiting]);
    }
  }

  lemma RunIndexesRebuilt(e: Database, p: Plan, unique: bool)
    requires p.canonical == Runs && Runs in e.tables && Faithful(p, e.tables[Runs].schema)
    requires IndexesOff(e.indexes, Runs) == map[ByStepStatus := Plain(Steps, [Status])]
    requires p.indexes == if unique then RUN_INDEXES + [AWAITING_INDEX] else RUN_INDEXES
    requires unique ==>
      && TableOk(e.tables[Runs]) && AwaitingUnique(e.tables[Runs].rows)
      && Status in Targets(p.copy, p.schema) && SessionKey in Targets(p.copy, p.schema)
    ensures CreateIndexes(InPlace(e, p), p.indexes)
         == Some(InPlace(e, p).(indexes := IndexesAt(if unique then 13 else 10)))
  {
    if unique {
      AwaitingUniqueAfterCopy(p, e.tables[Runs]);
    }
    RunIndexes(InPlace(e, p), unique);
  }

  lemma StepIndexRebuilt(e: Database, p: Plan, v: int)
    requires p.canonical == Steps && Steps in e.tables && Faithful(p, e.tables[Steps].schema)
    requires e.indexes == IndexesAt(v) && p.indexes == [STEP_INDEX]
    ensures CreateIndexes(InPlace(e, p), p.indexes) == Some(InPlace(e, p).(indexes := IndexesAt(v)))
  {
    IndexesOffAt(v);
    StepIndex(InPlace(e, p), v);
  }

  lemma IndexesRebuilt(db: Database, k: int, up: bool)
    requires Rebuilds(k, up) && AtVersion(db, Source(k, up))
    requires PlanFor(k, up).canonical == Changed(k)
    requires Faithful(PlanFor(k, up), db.tables[Changed(k)].schema)
    ensures
      var p, e := PlanFor(k, up), Prepared(db, k, up);
      CreateIndexes(InPlace(e, p), p.indexes) == Some(InPlace(e, p).(indexes := IndexesAt(Target(k, up))))
  {
    var v, unique := Source(k, up), k == 16 || (k == 13 && up);
    if Changed(k) == Steps {
      StepIndexRebuilt(db, PlanFor(k, up), v);
    } else {
      IndexesOffAt(v);
      if unique {
        AwaitingUniqueAt(db, v);
        CarriesAwaiting(k, up);
      }
      RunIndexesRebuilt(Prepared(db, k, up), PlanFor(k, up), unique);
    }
  }

  /** Dropping the unique index first, as the rollback of V013 does, breaks no constraint. */
  lemma PreparedConsistent(db: Database, k: int, up: bool)
    requires Consistent(db) && Sound(db)
    ensures Consistent(Prepared(db, k, up)) && Sound(Prepared(db, k, up))
  {
    var e := Prepared(db, k, up);
    forall x | x in e.indexes ensures IndexHonoured(e, e.indexes[x]) {
      assert IndexHonoured(db, db.indexes[x]);
    }
  }

  lemma ShapeAfter(e: Database, p: Plan, v: int)
    requires e.tables.Keys == {Runs, Steps} && p.canonical in e.tables
    requires CopyResolves(p.copy, p.schema, e.tables[p.canonical].schema)
    requires p.schema == SchemaAt(p.canonical, v)
    requires forall n :: n in e.tables && n != p.canonical ==> e.tables[n].schema == SchemaAt(n, v)
    ensures Shape(InPlace(e, p).(indexes := IndexesAt(v)), v)
  {
    var d := InPlace(e, p);
    assert d.tables.Keys == {Runs, Steps};
    assert d.tables[Runs].schema == SchemaAt(Runs, v);
    assert d.tables[Steps].schema == SchemaAt(Steps, v);
  }

  lemma SchemasAround(db: Database, k: int, up: bool)
    requires Rebuilds(k, up) && AtVersion(db, Source(k, up))
    ensures var p := PlanFor(k, up);
      && p.canonical == Changed(k) && IsScratch(p.scratch)
      && Faithful(p, db.tables[p.canonical].schema)
      && p.schema.parent == (if p.canonical == Runs then None else Some(Runs))
      && p.schema == SchemaAt(p.canonical, Target(k, up))
  {
    PlansFaithful(k, up);
    PlanSchemas(k, up);
  }

  lemma OtherSchemasStay(db: Database, k: int, up: bool)
    requires Rebuilds(k, up) && AtVersion(db, Source(k, up))
    ensures forall n :: n in db.tables && n != Changed(k) ==> db.tables[n].schema == SchemaAt(n, Target(k, up))
  {
    PlanSchemas(k, up);
  }

  /** The database a rebuild at the right version ends with. */
  function Outcome(db: Database, k: int, up: bool): Database
    requires PlanFor(k, up).canonical in db.tables
    requires Faithful(PlanFor(k, up), db.tables[PlanFor(k, up).canonical].schema)
  {
    InPlace(Prepared(db, k, up), PlanFor(k, up)).(indexes := IndexesAt(Target(k, up)))
  }

  lemma RebuildResult(db: Database, e: Database, p: Plan, indexes: map<IndexName, Index>)
    requires Consistent(e) && Sound(e) && e.tables == db.tables && e.tables.Keys == {Runs, Steps}
    requires p.canonical in e.tables && IsScratch(p.scratch) && Faithful(p, e.tables[p.canonical].schema)
    requires p.schema.parent == if p.canonical == Runs then None else Some(Runs)
    requires CreateIndexes(InPlace(e, p), p.indexes) == Some(InPlace(e, p).(indexes := indexes))
    ensures Rebuild(e, false, p) ==
      if NoForbiddenValue(p, db.tables[p.canonical].rows)
      then Some(InPlace(e, p).(indexes := indexes)) else None
    ensures NoForbiddenValue(p, db.tables[p.canonical].rows) ==> Consistent(InPlace(e, p).(indexes := indexes))
  {
    hide Consistent, CreateIndexes, NoForbiddenValue, InPlace, Rebuild, Sound;
    RebuildIff(e, p, indexes);
  }

  /** A rebuild at the right version, in closed form. */
  lemma RebuildAtVersion(db: Database, k: int, up: bool)
    requires Rebuilds(k, up) && AtVersion(db, Source(k, up))
    ensures PlanFor(k, up).canonical in db.tables
    ensures Faithful(PlanFor(k, up), db.tables[PlanFor(k, up).canonical].schema)
    ensures
      var p := PlanFor(k, up);
      if NoForbiddenValue(p, db.tables[p.canonical].rows)
      then
        && Rebuild(Prepared(db, k, up), false, p) == Some(Outcome(db, k, up))
        && AtVersion(Outcome(db, k, up), Target(k, up))
      else Rebuild(Prepared(db, k, up), false, p) == None
  {
    hide PlanFor, Faithful, Consistent, RunsSchemaAt, StepsSchemaAt, IndexesAt, Rebuild, CreateIndexes, Sound;
    SchemasAround(db, k, up);
    OtherSchemasStay(db, k, up);
    SoundAt(db, Source(k, up));
    PreparedConsistent(db, k, up);
    IndexesRebuilt(db, k, up);
    RebuildResult(db, Prepared(db, k, up), PlanFor(k, up), IndexesAt(Target(k, up)));
    ShapeAfter(Prepared(db, k, up), PlanFor(k, up), Target(k, up));
  }

  lemma CheckColumns(k: int)
    requires 11 <= k <= 16
    ensures Added(k).0 in SchemaAt(Changed(k), k).columns && Added(k).0 in SchemaAt(Changed(k), k - 1).columns
  {
    assert RUN_COLUMNS[4] == TriggeredBy && RUN_COLUMNS[8] == Status && STEP_COLUMNS[2] == StepKind;
  }

  /** `newer` allows what `older` allows, and `words` in `col` besides. */
  predicate Widens(older: map<Column, set<Word>>, newer: map<Column, set<Word>>, col: Column, words: set<Word>) {
    && older.Keys == newer.Keys && col in older
    && older[col] !! words && newer[col] == older[col] + words
    && forall c :: c in older && c != col ==> older[c] == newer[c]
  }

  lemma WordSets()
    ensures TRIGGERS_V011 == TRIGGERS_V010 + {AutoCron, AutoDream} && TRIGGERS_V010 !! {AutoCron, AutoDream}
    ensures TRIGGERS_V016 == TRIGGERS_V011 + {ManualCommand} && TRIGGERS_V011 !! {ManualCommand}
    ensures STATUS_V013 == STATUS_V010 + {AwaitingUser, Expired} && STATUS_V010 !! {AwaitingUser, Expired}
    ensures KINDS_V012 == KINDS_V010 + {LlmChat} && KINDS_V010 !! {LlmChat}
    ensures KINDS_V014 == KINDS_V012 + {UserInput} && KINDS_V012 !! {UserInput}
  {
  }

  lemma MapWidens(a: Column, b: Column, wa: set<Word>, wb: set<Word>, added: set<Word>)
    requires a != b && wa !! added
    ensures Widens(map[a := wa, b := wb], map[a := wa + added, b := wb], a, added)
    ensures Widens(map[b := wb, a := wa], map[b := wb, a := wa + added], a, added)
  {
  }

  /** The CHECK sets around a step differ in the added words only. */
  lemma AddedWords(k: int)
    requires 11 <= k <= 16
    ensures Widens(SchemaAt(Changed(k), k - 1).allowed, SchemaAt(Changed(k), k).allowed, Added(k).0, Added(k).1)
  {
    WordSets();
    if k == 11 {
      MapWidens(TriggeredBy, Status, TRIGGERS_V010, STATUS_V010, Added(k).1);
    } else if k == 12 {
      MapWidens(StepKind, Status, KINDS_V010, STEP_STATUS, Added(k).1);
    } else if k == 13 {
      MapWidens(Status, TriggeredBy, STATUS_V010, TRIGGERS_V011, Added(k).1);
    } else if k == 14 {
      MapWidens(StepKind, Status, KINDS_V012, STEP_STATUS, Added(k).1);
    } else if k == 15 {
      MapWidens(StepKind, Status, KINDS_V014, STEP_STATUS, {});
      assert KINDS_V014 + {} == KINDS_V014;
    } else {
      MapWidens(TriggeredBy, Status, TRIGGERS_V011, STATUS_V013, Added(k).1);
    }
  }

  /** Each step only widens the CHECK sets, so every old row passes the new ones. */
  lemma ForwardNeverForbids(k: int, p: Plan, t: Table)
    requires Rebuilds(k, true) && TableOk(t)
    requires t.schema == SchemaAt(Changed(k), k - 1) && p.schema == SchemaAt(Changed(k), k)
    ensures NoForbiddenValue(p, t.rows)
  {
    AddedWords(k);
    CheckColumns(k);
    ForbidsIff(p, t, Added(k).0, {});
    assert !Holds(t, Added(k).0, {});
  }

  lemma BackwardForbidsIff(k: int, p: Plan, t: Table)
    requires 11 <= k <= 16 && TableOk(t)
    requires t.schema == SchemaAt(Changed(k), k) && p.schema == SchemaAt(Changed(k), k - 1)
    ensures NoForbiddenValue(p, t.rows) <==> !Holds(t, Added(k).0, Added(k).1)
  {
    AddedWords(k);
    CheckColumns(k);
    ForbidsIff(p, t, Added(k).0, Added(k).1);
  }
}
