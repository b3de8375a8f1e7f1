/**
 Runs of the usage ledger: constraints hold in every reachable state, and two states of one
 run with the same accounting revision hold the same rows, while V050 comes and goes. Rolling
 both migrations back loses no charge, whether it is refused or not.
 */
module UsageLaws {
  import opened Common
  import opened UsageLedger
  import opened UsageStore

  datatype Entry =
    | EventRow(event: string, e: Event)
    | ItemRow(item: ItemKey, i: Item)
    | ReceiptRow(item: ItemKey, r: Receipt)
    | MeterRow(item: ItemKey, m: Meter)
    | SettlementRow(settlement: SettlementKey, s: Settlement)
    | ObservationRow(settlement: SettlementKey, meters: string)
    | BaselineRow(owner: OwnerKey, b: Baseline)
    | LedgerStateRow(text: string)
    | ReceiptStateRow(text: string)
    | OwnerRow(owner: OwnerKey, text: string)
    | RunRow(run: string, text: string)

  function TableOf(x: Entry): TableName {
    match x
    case EventRow(_, _) => Events
    case ItemRow(_, _) => Items
    case ReceiptRow(_, _) => Receipts
    case MeterRow(_, _) => Metering
    case SettlementRow(_, _) => Settlements
    case ObservationRow(_, _) => Observations
    case BaselineRow(_, _) => Baselines
    case LedgerStateRow(_) => LedgerState
    case ReceiptStateRow(_) => ReceiptState
    case OwnerRow(_, _) => Owners
    case RunRow(_, _) => Runs
  }

  predicate Present(r: Rows, x: Entry) {
    match x
    case EventRow(k, _) => k in r.events
    case ItemRow(k, _) => k in r.items
    case ReceiptRow(k, _) => k in r.receipts
    case MeterRow(k, _) => k in r.metering
    case SettlementRow(k, _) => k in r.settlements
    case ObservationRow(k, _) => k in r.observations
    case BaselineRow(k, _) => k in r.baselines
    case LedgerStateRow(_) => r.ledgerState.Some?
    case ReceiptStateRow(_) => r.receiptState.Some?
    case OwnerRow(k, _) => k in r.owners
    case RunRow(k, _) => k in r.runs
  }

  function With(r: Rows, x: Entry): Rows {
    match x
    case EventRow(k, v) => r.(events := r.events[k := v])
    case ItemRow(k, v) => r.(items := r.items[k := v])
    case ReceiptRow(k, v) => r.(receipts := r.receipts[k := v])
    case MeterRow(k, v) => r.(metering := r.metering[k := v])
    case SettlementRow(k, v) => r.(settlements := r.settlements[k := v])
    case ObservationRow(k, v) => r.(observations := r.observations[k := v])
    case BaselineRow(k, v) => r.(baselines := r.baselines[k := v])
    case LedgerStateRow(v) => r.(ledgerState := Some(v))
    case ReceiptStateRow(v) => r.(receiptState := Some(v))
    case OwnerRow(k, v) => r.(owners := r.owners[k := v])
    case RunRow(k, v) => r.(runs := r.runs[k := v])
  }

  /******* Steps of a run *******/

  datatype Op =
    | InsertRow(x: Entry)
    | UpdateRow(x: Entry)
    | DeleteRow(v: Victim)
    | PutSnapshot(id: string, payload: string)
    | ApplyV049
    | RevertV049
    | ApplyV050
    | RevertV050

  /** A statement that violates a constraint is rolled back, its trigger included. */
  ghost function Put(l: Ledger, x: Entry, o: Operation): Ledger {
    if TableOf(x) in l.tables && Constraints(With(l.rows, x), l.snapshots)
    then Fire(l.(rows := With(l.rows, x)), TableOf(x), o) else l
  }

  /**
   One statement or migration. V050 comes after V049 and goes before it; a row of a table that is
   not there cannot be written.
   */
  ghost function Step(l: Ledger, op: Op): Ledger {
    match op
    case InsertRow(x) => if Present(l.rows, x) then l else Put(l, x, Insert)
    case UpdateRow(x) => if Present(l.rows, x) then Put(l, x, Update) else l
    case DeleteRow(v) => if l.revision.Some? then Deleted(l, v) else l.(rows := Pruned(l.rows, v))
    case PutSnapshot(id, p) =>
      if PriceSnapshots !in l.tables || id in l.snapshots then l else l.(snapshots := l.snapshots[id := p])
    case ApplyV049 => Applied049(l)
    case RevertV049 => if Owners !in l.tables && Releases049(l) then RolledBack049(l) else l
    case ApplyV050 => if AccountingState in l.tables then Applied050(l) else l
    case RevertV050 => if Releases050(l) then RolledBack050(l) else l
  }

  lemma TrackedTablesHaveTriggers(l: Ledger, x: Entry, o: Operation)
    requires Installed(l) && TableOf(x) in l.tables
    ensures Trigger(TableOf(x), o) in l.triggers
  {
    assert o in {Insert, Update, Operation.Delete};
  }

  lemma WithIsInstalled(l: Ledger, x: Entry, n: nat)
    requires Installed(l) && TableOf(x) in l.tables
    ensures Installed(l.(rows := With(l.rows, x), revision := Some(n)))
  {
    hide TriggersOn;
  }

  /** What a cache keyed by the revision relies on, of an earlier and a later state. */
  ghost predicate Agree(a: Ledger, b: Ledger) {
    && a.revision.Some? && b.revision.Some? && a.revision.value <= b.revision.value
    && (a.revision == b.revision ==> a.rows == b.rows)
  }

  lemma AgreementIsTransitive(a: Ledger, b: Ledger, c: Ledger)
    requires Agree(a, b) && Agree(b, c)
    ensures Agree(a, c)
  {
  }

  lemma PutTracks(l: Ledger, x: Entry, o: Operation)
    requires Valid(l)
    ensures Valid(Put(l, x, o)) && Agree(l, Put(l, x, o))
  {
    hide Constraints, Installed, With;
    if TableOf(x) in l.tables {
      InstalledCounts(l);
      TrackedTablesHaveTriggers(l, x, o);
      WithIsInstalled(l, x, l.revision.value + 1);
    } else {
      InstalledCounts(l);
    }
  }

  lemma InstalledCounts(l: Ledger)
    requires Installed(l)
    ensures l.revision.Some?
  {
  }

  lemma DeletedTracks(l: Ledger, v: Victim)
    requires Valid(l)
    ensures l.revision.Some? && Valid(Deleted(l, v)) && Agree(l, Deleted(l, v))
  {
    hide Constraints, Installed, Pruned;
    InstalledCounts(l);
    PruningShrinks(l.rows, v);
    DeletedIsValid(l, v);
  }

  lemma SnapshotTracks(l: Ledger, id: string, p: string)
    requires Valid(l) && id !in l.snapshots
    ensures Valid(l.(snapshots := l.snapshots[id := p]))
  {
    hide RowConstraints, TriggersOn;
  }

  lemma MigrationTracks(l: Ledger)
    requires Installed(l)
    ensures Applied049(l) == l
    ensures Installed(Applied050(l)) && Applied050(l).rows == l.rows && Applied050(l).revision == l.revision
    ensures Releases050(l) ==>
      var d := RolledBack050(l); Installed(d) && d.rows == l.rows && d.revision == l.revision
  {
    ReapplyingChangesNothing(l);
    if l.tables == METERED_TABLES {
      assert Applied050(l).tables == METERED_TABLES + ATTRIBUTION_TABLES;
      TriggersJoin(METERED_TABLES);
    }
    if Releases050(l) {
      assert RolledBack050(l).tables == METERED_TABLES;
      TriggersPart();
    }
  }

  lemma TriggersJoin(ts: set<TableName>)
    requires ts == METERED_TABLES
    ensures TriggersOn(ts - {PriceSnapshots, AccountingState}) + TriggersOn(ATTRIBUTION_TABLES)
         == TriggersOn(ts + ATTRIBUTION_TABLES - {PriceSnapshots, AccountingState})
  {
  }

  lemma TriggersPart()
    ensures var all := TriggersOn(METERED_TABLES + ATTRIBUTION_TABLES - {PriceSnapshots, AccountingState});
      Elsewhere(all, ATTRIBUTION_TABLES) == TriggersOn(METERED_TABLES - {PriceSnapshots, AccountingState})
  {
  }

  lemma SameRowsStayValid(l: Ledger, d: Ledger)
    requires Valid(l) && Installed(d) && d.rows == l.rows && d.snapshots == l.snapshots && d.revision == l.revision
    ensures Valid(d) && Agree(l, d)
  {
    hide Constraints;
  }

  lemma MigrationStepTracks(l: Ledger, op: Op)
    requires Valid(l) && (op.ApplyV049? || op.ApplyV050? || op.RevertV050?)
    ensures l.revision.Some? && Valid(Step(l, op)) && Agree(l, Step(l, op))
  {
    hide Constraints, Installed;
    InstalledCounts(l);
    InstalledHasCounter(l);
    MigrationTracks(l);
    SameRowsStayValid(l, l);
    if op.ApplyV050? {
      SameRowsStayValid(l, Applied050(l));
    } else if op.RevertV050? && Releases050(l) {
      SameRowsStayValid(l, RolledBack050(l));
    }
  }

  lemma InstalledHasCounter(l: Ledger)
    requires Installed(l)
    ensures AccountingState in l.tables && PriceSnapshots in l.tables
  {
  }

  /**
   While the counter is there, every step keeps the constraints, and moves the revision up
   whenever it changes a row.
   */
  lemma StepTracks(l: Ledger, op: Op)
    requires Valid(l) && Step(l, op).revision.Some?
    ensures l.revision.Some? && Valid(Step(l, op))
    ensures Agree(l, Step(l, op))
  {
    hide Valid, Installed, Put, Deleted, Applied049, Applied050, RolledBack050, Releases049, Releases050, Present;
    ValidCounts(l);
    match op
    case RevertV049 =>
    case InsertRow(x) => PutTracks(l, x, Insert);
    case UpdateRow(x) => PutTracks(l, x, Update);
    case DeleteRow(v) => DeletedTracks(l, v);
    case PutSnapshot(id, p) => if id !in l.snapshots { SnapshotTracks(l, id, p); }
    case _ => MigrationStepTracks(l, op);
  }

  lemma ValidCounts(l: Ledger)
    requires Valid(l)
    ensures l.revision.Some?
  {
  }

  /******* The migrations *******/

  lemma ReapplyingChangesNothing(l: Ledger)
    requires Installed(l)
    ensures Applied049(l) == l
    ensures ATTRIBUTION_TABLES <= l.tables ==> Applied050(l) == l
  {
    assert l.tables + METERING_TABLES + {PriceSnapshots, AccountingState} == l.tables;
    assert l.triggers + TriggersOn(BASE_TABLES + METERING_TABLES) == l.triggers;
    if ATTRIBUTION_TABLES <= l.tables {
      assert Owners in l.tables;
      assert l.tables + ATTRIBUTION_TABLES == l.tables;
      assert l.triggers + TriggersOn(ATTRIBUTION_TABLES) == l.triggers;
    }
  }

  /** A trigger writes the counter, so it is dangling once the counter's table is gone. */
  predicate Dangling(l: Ledger) {
    l.triggers != {} && AccountingState !in l.tables
  }

  /** The ledger as V024 leaves it. */
  ghost predicate BeforeV049(l: Ledger) {
    && l.tables == BASE_TABLES && l.triggers == {} && l.revision.None? && l.snapshots == map[]
    && NoMetering(l.rows) && l.rows.observations == map[] && NoAttribution(l.rows)
    && Constraints(l.rows, l.snapshots)
  }

  /** The upgrade keeps every charge and starts counting at zero; undone at once, it leaves no trace. */
  lemma UpgradeRoundTrip(l: Ledger)
    requires BeforeV049(l)
    ensures var m, u := Applied049(l), Applied050(Applied049(l));
      && Valid(m) && Valid(u) && u.rows == m.rows == l.rows && u.revision == m.revision == Some(0)
      && RolledBack049(m) == l && BothRolledBack(u) == l
  {
    var m, u := Applied049(l), Applied050(Applied049(l));
    assert m.tables == METERED_TABLES;
    assert m.triggers == TriggersOn(METERED_TABLES - {PriceSnapshots, AccountingState}) by {
      assert METERED_TABLES - {PriceSnapshots, AccountingState} == BASE_TABLES + METERING_TABLES;
    }
    MigrationTracks(m);
    assert u.tables == METERED_TABLES + ATTRIBUTION_TABLES;
    RollbackLeavesBase(m);
    MigrationTracks(u);
    RollbackLeavesBase(RolledBack050(u));
  }

  lemma RollbackLeavesBase(l: Ledger)
    requires Installed(l) && l.tables == METERED_TABLES
    ensures RolledBack049(l).tables == BASE_TABLES && RolledBack049(l).triggers == {}
  {
    assert RolledBack049(l).tables == BASE_TABLES;
    assert RolledBack049(l).triggers == {};
  }

  lemma NoSettlementNoObservation(r: Rows, snapshots: map<string, string>)
    requires ForeignKeys(r, snapshots) && NoMetering(r)
    ensures r.observations == map[]
  {
    assert forall s :: s !in r.observations;
  }

  /**
   Rolling back V050, then V049, from any reachable state with both applied. All of it goes
   through exactly when no attribution, metering or settlement row exists. Nothing at all
   changes exactly when an attribution row exists; otherwise a refusal of V049 finds V050 gone.
   In every case all rows are kept, and no trigger writes a counter that is gone.
   */
  lemma RollbackLosesNoRow(l: Ledger)
    requires Valid(l) && ATTRIBUTION_TABLES <= l.tables
    ensures var d := BothRolledBack(l);
      && d.rows == l.rows && !Dangling(d)
      && (d == l <==> !NoAttribution(l.rows))
      && (d == Ledger(l.rows, map[], BASE_TABLES, {}, None) <==> NoAttribution(l.rows) && NoMetering(l.rows))
      && (NoAttribution(l.rows) && !NoMetering(l.rows) ==> Valid(d) && d.tables == METERED_TABLES)
  {
    hide RowConstraints, TriggersOn;
    assert Owners in l.tables && Owners !in METERED_TABLES;
    assert AccountingState in METERED_TABLES && AccountingState !in BASE_TABLES;
    if NoAttribution(l.rows) {
      MigrationTracks(l);
      var d := RolledBack050(l);
      assert d.tables == METERED_TABLES;
      RollbackLeavesBase(d);
      if NoMetering(l.rows) {
        NoSettlementNoObservation(l.rows, l.snapshots);
      }
    }
  }

  /** Out of order, the triggers of V050 would outlive the counter they write. */
  lemma OutOfOrderRollbackDangles(l: Ledger)
    requires Installed(l) && ATTRIBUTION_TABLES <= l.tables
    ensures Dangling(RolledBack049(l))
  {
    assert Runs in l.tables;
    assert Trigger(Runs, Insert) in RolledBack049(l).triggers;
  }

  /******* Whole runs *******/

  /** Either the ledger of V024, or one with the counter. */
  ghost predicate Stage(l: Ledger) {
    Valid(l) || BeforeV049(l)
  }

  lemma BasePutStays(l: Ledger, x: Entry, o: Operation)
    requires BeforeV049(l)
    ensures BeforeV049(Put(l, x, o))
  {
    hide Constraints;
  }

  lemma BasePruneStays(l: Ledger, v: Victim)
    requires BeforeV049(l)
    ensures BeforeV049(l.(rows := Pruned(l.rows, v)))
  {
    hide Constraints, Pruned;
    PruningKeepsConstraints(l.rows, l.snapshots, v);
    PrunedIsFewer(l.rows, v);
  }

  lemma RevertReachesBase(l: Ledger)
    requires Valid(l) && Owners !in l.tables && Releases049(l)
    ensures BeforeV049(RolledBack049(l))
  {
    hide RowConstraints, TriggersOn;
    assert l.tables == METERED_TABLES by {
      assert Owners in METERED_TABLES + ATTRIBUTION_TABLES;
    }
    RollbackLeavesBase(l);
    NoSettlementNoObservation(l.rows, l.snapshots);
    EmptiedMeteringOk(l.rows, l.snapshots);
  }

  lemma EmptiedMeteringOk(r: Rows, snapshots: map<string, string>)
    requires Constraints(r, snapshots) && NoMetering(r) && r.observations == map[]
    ensures Constraints(r.(metering := map[], settlements := map[], observations := map[]), map[])
  {
    hide RowConstraints;
    assert r.(metering := map[], settlements := map[], observations := map[]) == r;
  }

  lemma BaseStepStays(l: Ledger, op: Op)
    requires BeforeV049(l)
    ensures Stage(Step(l, op))
  {
    hide Constraints, Put, Pruned;
    match op
    case InsertRow(x) => BasePutStays(l, x, Insert);
    case UpdateRow(x) => BasePutStays(l, x, Update);
    case DeleteRow(v) => BasePruneStays(l, v);
    case ApplyV049 => UpgradeRoundTrip(l);
    case RevertV049 => assert Metering !in l.tables;
    case RevertV050 => assert Owners in ATTRIBUTION_TABLES && Owners !in l.tables;
    case _ =>
  }

  lemma CounterIsLostIff(l: Ledger, op: Op)
    requires Valid(l)
    ensures Step(l, op).revision.None? <==> op.RevertV049? && Owners !in l.tables && Releases049(l)
  {
    hide Installed, Constraints, Pruned, Releases050;
    ValidCounts(l);
  }

  /** Constraints hold in every reachable ledger, with or without the counter. */
  lemma StepKeepsStage(l: Ledger, op: Op)
    requires Stage(l)
    ensures Stage(Step(l, op))
  {
    hide Valid, BeforeV049, Step;
    if Valid(l) {
      CounterIsLostIff(l, op);
      if Step(l, op).revision.Some? {
        StepTracks(l, op);
      } else {
        RevertStepReachesBase(l);
      }
    } else {
      BaseStepStays(l, op);
    }
  }

  lemma RevertStepReachesBase(l: Ledger)
    requires Valid(l) && Owners !in l.tables && Releases049(l)
    ensures BeforeV049(Step(l, RevertV049))
  {
    hide Valid, BeforeV049, RolledBack049, Releases049;
    RevertReachesBase(l);
  }

  ghost function After(l: Ledger, ops: seq<Op>): Ledger
    requires Stage(l)
    ensures Stage(After(l, ops))
  {
    if ops == [] then l
    else
      var prior := After(l, ops[..|ops| - 1]);
      StepKeepsStage(prior, ops[|ops| - 1]);
      Step(prior, ops[|ops| - 1])
  }

  /** The counter is there from point `i` of the run to its end. */
  ghost predicate OneLife(l: Ledger, ops: seq<Op>, i: nat)
    requires Stage(l) && i <= |ops|
  {
    forall j :: i <= j <= |ops| ==> After(l, ops[..j]).revision.Some?
  }

  lemma CountedIsValid(l: Ledger)
    requires Stage(l) && l.revision.Some?
    ensures Valid(l)
  {
  }

  /**
   Cache agreement: within one life of the counter, two points of a run that show the same
   revision hold the same rows, whatever inserts, updates, cascading deletes, re-applied
   migrations and rollbacks of V050 lie in between.
   */
  lemma {:induction false} EqualRevisionsMeanEqualRows(l: Ledger, ops: seq<Op>, i: nat)
    requires Stage(l) && i <= |ops| && OneLife(l, ops, i)
    ensures Agree(After(l, ops[..i]), After(l, ops))
    decreases |ops|
  {
    hide Valid, Stage, Step;
    assert ops[..|ops|] == ops;
    if i < |ops| {
      var before := ops[..|ops| - 1];
      forall j | i <= j <= |before| ensures After(l, before[..j]).revision.Some? {
        assert before[..j] == ops[..j];
      }
      EqualRevisionsMeanEqualRows(l, before, i);
      assert before[..i] == ops[..i] && before[..|before|] == before;
      CountedIsValid(After(l, before));
      StepTracks(After(l, before), ops[|ops| - 1]);
      AgreementIsTransitive(After(l, ops[..i]), After(l, before), After(l, ops));
    }
  }

  /**
   Across two lives it fails: roll V049 back, write any row, apply V049 again, and the revision
   of the first life is back with other rows.
   */
  lemma TwoLivesCollide(l: Ledger, x: Entry)
    requires BeforeV049(l) && !Present(l.rows, x) && TableOf(x) in BASE_TABLES
    requires Constraints(With(l.rows, x), l.snapshots)
    ensures var ops := [ApplyV049, RevertV049, InsertRow(x), ApplyV049];
      && After(l, ops[..1]).revision == After(l, ops).revision == Some(0)
      && After(l, ops[..1]).rows == l.rows && After(l, ops).rows == With(l.rows, x) != l.rows
  {
    hide Constraints, TriggersOn;
    var ops := [ApplyV049, RevertV049, InsertRow(x), ApplyV049];
    UpgradeRoundTrip(l);
    AfterOne(l, ops, 0);
    assert After(l, ops[..1]) == Applied049(l);
    AfterOne(l, ops, 1);
    assert After(l, ops[..2]) == l by {
      assert Owners !in Applied049(l).tables && Releases049(Applied049(l));
    }
    AfterOne(l, ops, 2);
    assert After(l, ops[..3]) == l.(rows := With(l.rows, x));
    AfterOne(l, ops, 3);
    assert ops[..4] == ops;
    assert Present(With(l.rows, x), x);
  }

  lemma AfterOne(l: Ledger, ops: seq<Op>, i: nat)
    requires Stage(l) && i < |ops|
    ensures After(l, ops[..i + 1]) == Step(After(l, ops[..i]), ops[i])
  {
    assert ops[..i + 1][..i] == ops[..i];
  }
}
