/**
 The ledger as SQLite changes it: rows go one at a time, each firing its trigger, and the
 migrations V049 and V050 run statement by statement.
 */
module UsageStore {
  import opened Common
  import opened UsageLedger

  /******* Facts about the cascade and the statements *******/

  function Named(tables: seq<TableName>): set<TableName> {
    set t | t in tables
  }

  const TRIGGERED_BY_V049: seq<TableName> :=
    [Events, Items, Receipts, Metering, Settlements, Observations, Baselines, LedgerState, ReceiptState]

  lemma TriggeredByV049()
    ensures Named(TRIGGERED_BY_V049) == BASE_TABLES + METERING_TABLES
  {
    assert forall t :: t in BASE_TABLES + METERING_TABLES ==> t in TRIGGERED_BY_V049;
  }

  function WithoutMetering(l: Ledger): Ledger {
    Dropped(Dropped(Dropped(Dropped(Dropped(l, Observations), Settlements), Metering), PriceSnapshots), AccountingState)
  }

  lemma DropsRollBackV049(l: Ledger)
    ensures
      WithoutMetering(l.(triggers := Elsewhere(l.triggers, BASE_TABLES + METERING_TABLES))) == RolledBack049(l)
  {
    var d := WithoutMetering(l.(triggers := Elsewhere(l.triggers, BASE_TABLES + METERING_TABLES)));
    assert d.tables == RolledBack049(l).tables;
    assert d.triggers == RolledBack049(l).triggers;
  }

  lemma TriggersOnMore(triggers: set<Trigger>, tables: seq<TableName>, i: nat)
    requires i < |tables|
    ensures var t := tables[i];
      triggers + TriggersOn(Named(tables[..i])) + {Trigger(t, Insert)} + {Trigger(t, Update)}
        + {Trigger(t, Operation.Delete)}
      == triggers + TriggersOn(Named(tables[..i + 1]))
  {
    assert Named(tables[..i + 1]) == Named(tables[..i]) + {tables[i]};
  }

  lemma ElsewhereLess(triggers: set<Trigger>, tables: seq<TableName>, i: nat)
    requires i < |tables|
    ensures var t := tables[i];
      Elsewhere(triggers, Named(tables[..i])) - {Trigger(t, Insert)} - {Trigger(t, Update)}
        - {Trigger(t, Operation.Delete)}
      == Elsewhere(triggers, Named(tables[..i + 1]))
  {
    var t := tables[i];
    assert Named(tables[..i + 1]) == Named(tables[..i]) + {t};
    forall x: Trigger | x.table == t
      ensures x in {Trigger(t, Insert), Trigger(t, Update), Trigger(t, Operation.Delete)}
    {
      assert x.operation.Insert? || x.operation.Update? || x.operation.Delete?;
    }
  }

  /** A row of any table V049 tracks can go, and the counter sees it. */
  predicate Tracks(l: Ledger) {
    l.revision.Some? && forall t :: t in BASE_TABLES + METERING_TABLES ==> Trigger(t, Operation.Delete) in l.triggers
  }

  predicate SameSchema(a: Ledger, b: Ledger) {
    a.tables == b.tables && a.triggers == b.triggers && a.snapshots == b.snapshots
  }

  lemma InstalledTracks(l: Ledger, v: Victim)
    requires Installed(l)
    ensures Tracks(l)
    ensures IsLeaf(v) && HasLeaf(l.rows, v) ==> Trigger(LeafTable(v), Operation.Delete) in l.triggers
  {
  }

  lemma DeletedIsInstalled(l: Ledger, v: Victim)
    requires Installed(l)
    ensures Installed(Deleted(l, v))
  {
    hide PruneEvent, PruneItem, PruneSettlement, TriggersOn;
    PrunedIsFewer(l.rows, v);
  }

  lemma DeletedIsValid(l: Ledger, v: Victim)
    requires Valid(l)
    ensures ForeignKeys(l.rows, l.snapshots) && Valid(Deleted(l, v))
  {
    hide Installed, ForeignKeys, RowConstraints;
    DeletedIsInstalled(l, v);
    PruningKeepsConstraints(l.rows, l.snapshots, v);
  }

  lemma BalanceFixesLedger(l0: Ledger, l1: Ledger, p: Rows)
    requires l0.revision.Some? && l1.revision.Some? && SameSchema(l0, l1) && l1.rows == p
    requires p.Size() <= l0.rows.Size()
    requires l1.revision.value + p.Size() == l0.revision.value + l0.rows.Size()
    ensures l1 == Shrunk(l0, p)
  {
  }

  lemma Absent<K, V>(m: map<K, V>, k: K)
    requires k !in m
    ensures m - {k} == m
  {
  }

  predicate IsLeaf(v: Victim) {
    !v.OneEvent? && !v.OneItem? && !v.OneSettlement?
  }

  function LeafTable(v: Victim): (t: TableName)
    requires IsLeaf(v)
    ensures t in BASE_TABLES + METERING_TABLES + ATTRIBUTION_TABLES
  {
    match v
    case OneReceipt(_) => Receipts
    case OneMeter(_) => Metering
    case OneObservation(_) => Observations
    case OneBaseline(_) => Baselines
    case OneOwner(_) => Owners
    case OneRun(_) => Runs
    case TheLedgerState => LedgerState
    case TheReceiptState => ReceiptState
  }

  predicate HasLeaf(r: Rows, v: Victim)
    requires IsLeaf(v)
  {
    match v
    case OneReceipt(k) => k in r.receipts
    case OneMeter(k) => k in r.metering
    case OneObservation(s) => s in r.observations
    case OneBaseline(k) => k in r.baselines
    case OneOwner(k) => k in r.owners
    case OneRun(k) => k in r.runs
    case TheLedgerState => r.ledgerState.Some?
    case TheReceiptState => r.receiptState.Some?
  }

  lemma TreeLeafCountsOne(r: Rows, v: Victim)
    requires IsLeaf(v) && HasLeaf(r, v) && (v.OneReceipt? || v.OneMeter? || v.OneObservation?)
    ensures Pruned(r, v).Size() + 1 == r.Size()
  {
    match v
    case OneReceipt(k) => OneLess(r.receipts, k);
    case OneMeter(k) => OneLess(r.metering, k);
    case OneObservation(s) => OneLess(r.observations, s);
  }

  lemma FlatLeafCountsOne(r: Rows, v: Victim)
    requires IsLeaf(v) && HasLeaf(r, v) && (v.OneBaseline? || v.OneOwner? || v.OneRun?)
    ensures Pruned(r, v).Size() + 1 == r.Size()
  {
    match v
    case OneBaseline(k) => OneLess(r.baselines, k);
    case OneOwner(k) => OneLess(r.owners, k);
    case OneRun(k) => OneLess(r.runs, k);
  }

  lemma LeafCountsOne(r: Rows, v: Victim)
    requires IsLeaf(v) && HasLeaf(r, v)
    ensures Pruned(r, v).Size() + 1 == r.Size()
  {
    if v.OneReceipt? || v.OneMeter? || v.OneObservation? {
      TreeLeafCountsOne(r, v);
    } else if v.OneBaseline? || v.OneOwner? || v.OneRun? {
      FlatLeafCountsOne(r, v);
    }
  }

  lemma OneLess<K, V>(m: map<K, V>, k: K)
    requires k in m
    ensures |m - {k}| + 1 == |m|
  {
    assert (m - {k}).Keys == m.Keys - {k};
  }

  lemma NoLeaf(r: Rows, v: Victim)
    requires IsLeaf(v) && !HasLeaf(r, v)
    ensures Pruned(r, v) == r
  {
    match v
    case OneReceipt(k) => Absent(r.receipts, k);
    case OneMeter(k) => Absent(r.metering, k);
    case OneObservation(s) => Absent(r.observations, s);
    case OneBaseline(k) => Absent(r.baselines, k);
    case OneOwner(k) => Absent(r.owners, k);
    case OneRun(k) => Absent(r.runs, k);
    case _ =>
  }

  /** Part way through the cascade of item `k`: an observation remains while its settlement does. */
  ghost predicate Unsettling(r0: Rows, r: Rows, k: ItemKey) {
    && r == r0.(settlements := r.settlements, observations := r.observations)
    && (forall s :: s in r.settlements ==> s in r0.settlements && r.settlements[s] == r0.settlements[s])
    && (forall s :: s in r0.settlements && s.item != k ==> s in r.settlements)
    && (forall s :: s in r.observations ==> s in r0.observations && r.observations[s] == r0.observations[s])
    && (forall s :: s in r0.observations ==> (s in r.observations <==> s.item != k || s in r.settlements))
  }

  lemma UnsettlingStep(r0: Rows, r: Rows, s: SettlementKey, k: ItemKey)
    requires Unsettling(r0, r, k) && s in r.settlements && s.item == k
    ensures Unsettling(r0, PruneSettlement(r, s), k)
  {
  }

  lemma UnsettlingDone(r0: Rows, r: Rows, k: ItemKey)
    requires Unsettling(r0, r, k) && !exists s :: s in r.settlements && s.item == k
    ensures r == r0.(
      settlements := map s | s in r0.settlements && s.item != k :: r0.settlements[s],
      observations := map s | s in r0.observations && s.item != k :: r0.observations[s])
  {
    assert r.settlements == map s | s in r0.settlements && s.item != k :: r0.settlements[s];
    assert r.observations == map s | s in r0.observations && s.item != k :: r0.observations[s];
  }

  /** The rows of `m0` that are still in `m`: all but those of event `e` whose item is gone. */
  ghost predicate KeptOfItems<V>(m0: map<ItemKey, V>, m: map<ItemKey, V>, items: set<ItemKey>, e: string) {
    Within(m, m0) && forall k :: k in m0 ==> (k in m <==> k.event != e || k in items)
  }

  ghost predicate KeptOfSettled<V>(m0: map<SettlementKey, V>, m: map<SettlementKey, V>,
                                   items: set<ItemKey>, e: string) {
    Within(m, m0) && forall s :: s in m0 ==> (s in m <==> s.item.event != e || s.item in items)
  }

  /** Part way through the cascade of `e`: its rows remain exactly while their item does. */
  ghost predicate Remaining(r0: Rows, r: Rows, e: string) {
    && r == r0.(events := r0.events - {e}, items := r.items, receipts := r.receipts, metering := r.metering,
                settlements := r.settlements, observations := r.observations)
    && Within(r.items, r0.items) && (forall k :: k in r0.items && k.event != e ==> k in r.items)
    && KeptOfItems(r0.receipts, r.receipts, r.items.Keys, e)
    && KeptOfItems(r0.metering, r.metering, r.items.Keys, e)
    && KeptOfSettled(r0.settlements, r.settlements, r.items.Keys, e)
    && KeptOfSettled(r0.observations, r.observations, r.items.Keys, e)
    && (forall s :: s in r.observations ==> s in r.settlements)
  }

  lemma KeptWithoutItem<V>(m0: map<ItemKey, V>, m: map<ItemKey, V>, items: set<ItemKey>, e: string, k: ItemKey)
    requires KeptOfItems(m0, m, items, e) && k.event == e
    ensures KeptOfItems(m0, m - {k}, items - {k}, e)
  {
  }

  lemma KeptWithoutSettled<V>(m0: map<SettlementKey, V>, m: map<SettlementKey, V>,
                              items: set<ItemKey>, e: string, k: ItemKey)
    requires KeptOfSettled(m0, m, items, e) && k.event == e
    ensures KeptOfSettled(m0, map s | s in m && s.item != k :: m[s], items - {k}, e)
  {
  }

  lemma RemainingStart(r0: Rows, snapshots: map<string, string>, e: string)
    requires ForeignKeys(r0, snapshots)
    ensures Remaining(r0, r0.(events := r0.events - {e}), e)
  {
  }

  lemma RemainingStep(r0: Rows, r: Rows, k: ItemKey, e: string)
    requires Remaining(r0, r, e) && k in r.items && k.event == e
    ensures Remaining(r0, PruneItem(r, k), e)
  {
    hide KeptOfItems, KeptOfSettled;
    assert (r.items - {k}).Keys == r.items.Keys - {k};
    KeptWithoutItem(r0.receipts, r.receipts, r.items.Keys, e, k);
    KeptWithoutItem(r0.metering, r.metering, r.items.Keys, e, k);
    KeptWithoutSettled(r0.settlements, r.settlements, r.items.Keys, e, k);
    KeptWithoutSettled(r0.observations, r.observations, r.items.Keys, e, k);
  }

  lemma OfOtherEvents<V>(m0: map<ItemKey, V>, m: map<ItemKey, V>, e: string)
    requires forall k :: k in m ==> k in m0 && m[k] == m0[k]
    requires forall k :: k in m0 ==> (k in m <==> k.event != e)
    ensures m == map k | k in m0 && k.event != e :: m0[k]
  {
  }

  lemma SettledForOtherEvents<V>(m0: map<SettlementKey, V>, m: map<SettlementKey, V>, e: string)
    requires forall s :: s in m ==> s in m0 && m[s] == m0[s]
    requires forall s :: s in m0 ==> (s in m <==> s.item.event != e)
    ensures m == map s | s in m0 && s.item.event != e :: m0[s]
  {
  }

  lemma RemainingDone(r0: Rows, r: Rows, e: string)
    requires Remaining(r0, r, e) && !exists k :: k in r.items && k.event == e
    ensures r == PruneEvent(r0, e)
  {
    OfOtherEvents(r0.items, r.items, e);
    OfOtherEvents(r0.receipts, r.receipts, e);
    OfOtherEvents(r0.metering, r.metering, e);
    SettledForOtherEvents(r0.settlements, r.settlements, e);
    SettledForOtherEvents(r0.observations, r.observations, e);
  }

  /******* The store *******/

  class Store {
    var l: Ledger

    constructor (l: Ledger)
      ensures this.l == l
    {
      this.l := l;
    }

    /** Every deleted row fires one trigger, so revision plus row count never changes. */
    ghost function Balance(): nat
      reads this
      requires l.revision.Some?
    {
      l.revision.value + l.rows.Size()
    }

    /** One row of table `t` goes, and its trigger fires. */
    method RemoveRow(r: Rows, t: TableName)
      requires Tracks(l) && Trigger(t, Operation.Delete) in l.triggers
      requires r.Size() + 1 == l.rows.Size()
      modifies this
      ensures Tracks(l) && SameSchema(old(l), l) && l.rows == r
      ensures Balance() == old(Balance())
    {
      l := Fire(l.(rows := r), t, Operation.Delete);
    }

    /** DELETE of one row that nothing refers to; a key that is not there deletes nothing. */
    method DeleteLeaf(v: Victim)
      requires Tracks(l) && IsLeaf(v)
      requires HasLeaf(l.rows, v) ==> Trigger(LeafTable(v), Operation.Delete) in l.triggers
      modifies this
      ensures Tracks(l) && SameSchema(old(l), l)
      ensures l.rows == Pruned(old(l).rows, v)
      ensures Balance() == old(Balance())
    {
      if HasLeaf(l.rows, v) {
        LeafCountsOne(l.rows, v);
        RemoveRow(Pruned(l.rows, v), LeafTable(v));
      } else {
        NoLeaf(l.rows, v);
      }
    }

    method DeleteSettlementRow(s: SettlementKey)
      requires Tracks(l) && s in l.rows.settlements
      modifies this
      ensures Tracks(l) && SameSchema(old(l), l)
      ensures l.rows == old(l).rows.(settlements := old(l).rows.settlements - {s})
      ensures Balance() == old(Balance())
    {
      RemoveRow(l.rows.(settlements := l.rows.settlements - {s}), Settlements);
    }

    method DeleteSettlement(s: SettlementKey)
      requires Tracks(l) && s in l.rows.settlements
      modifies this
      ensures Tracks(l) && SameSchema(old(l), l)
      ensures l.rows == PruneSettlement(old(l).rows, s)
      ensures Balance() == old(Balance())
    {
      DeleteSettlementRow(s);
      DeleteLeaf(OneObservation(s));
    }

    /** The cascade of one item, settlement by settlement. */
    method DeleteSettlementsOf(k: ItemKey)
      requires Tracks(l)
      requires forall s :: s in l.rows.observations && s.item == k ==> s in l.rows.settlements
      modifies this
      ensures Tracks(l) && SameSchema(old(l), l)
      ensures l.rows == old(l).rows.(
        settlements := map s | s in old(l).rows.settlements && s.item != k :: old(l).rows.settlements[s],
        observations := map s | s in old(l).rows.observations && s.item != k :: old(l).rows.observations[s])
      ensures Balance() == old(Balance())
    {
      ghost var r0 := l.rows;
      while exists s :: s in l.rows.settlements && s.item == k
        invariant Tracks(l) && SameSchema(old(l), l)
        invariant Balance() == old(Balance())
        invariant Unsettling(r0, l.rows, k)
        decreases l.rows.settlements.Keys
      {
        var s :| s in l.rows.settlements && s.item == k;
        ghost var r1 := l.rows;
        DeleteSettlement(s);
        UnsettlingStep(r0, r1, s, k);
      }
      UnsettlingDone(r0, l.rows, k);
    }

    method DeleteItemRow(k: ItemKey)
      requires Tracks(l) && k in l.rows.items
      modifies this
      ensures Tracks(l) && SameSchema(old(l), l)
      ensures l.rows == old(l).rows.(items := old(l).rows.items - {k})
      ensures Balance() == old(Balance())
    {
      RemoveRow(l.rows.(items := l.rows.items - {k}), Items);
    }

    method DeleteItem(k: ItemKey)
      requires Tracks(l) && k in l.rows.items
      requires forall s :: s in l.rows.observations && s.item == k ==> s in l.rows.settlements
      modifies this
      ensures Tracks(l) && SameSchema(old(l), l)
      ensures l.rows == PruneItem(old(l).rows, k)
      ensures Balance() == old(Balance())
    {
      DeleteItemRow(k);
      DeleteLeaf(OneReceipt(k));
      DeleteLeaf(OneMeter(k));
      DeleteSettlementsOf(k);
    }

    method DeleteEventRow(e: string)
      requires Tracks(l) && e in l.rows.events
      modifies this
      ensures Tracks(l) && SameSchema(old(l), l)
      ensures l.rows == old(l).rows.(events := old(l).rows.events - {e})
      ensures Balance() == old(Balance())
    {
      RemoveRow(l.rows.(events := l.rows.events - {e}), Events);
    }

    /** DELETE FROM usage_events WHERE event_id = ?, with enforcement on. */
    method DeleteEvent(e: string)
      requires Tracks(l) && ForeignKeys(l.rows, l.snapshots) && e in l.rows.events
      modifies this
      ensures Tracks(l) && SameSchema(old(l), l)
      ensures l.rows == PruneEvent(old(l).rows, e)
      ensures Balance() == old(Balance())
    {
      ghost var r0 := l.rows;
      DeleteEventRow(e);
      RemainingStart(r0, l.snapshots, e);
      while exists k :: k in l.rows.items && k.event == e
        invariant Tracks(l) && SameSchema(old(l), l)
        invariant Balance() == old(Balance())
        invariant Remaining(r0, l.rows, e)
        decreases l.rows.items.Keys
      {
        var k :| k in l.rows.items && k.event == e;
        ghost var r1 := l.rows;
        DeleteItem(k);
        RemainingStep(r0, r1, k, e);
      }
      RemainingDone(r0, l.rows, e);
    }

    method Prune(v: Victim)
      requires Tracks(l) && ForeignKeys(l.rows, l.snapshots)
      requires IsLeaf(v) && HasLeaf(l.rows, v) ==> Trigger(LeafTable(v), Operation.Delete) in l.triggers
      modifies this
      ensures Tracks(l) && SameSchema(old(l), l)
      ensures l.rows == Pruned(old(l).rows, v)
      ensures Balance() == old(Balance())
    {
      if v.OneEvent? {
        if v.event in l.rows.events { DeleteEvent(v.event); }
      } else if v.OneItem? {
        if v.item in l.rows.items { DeleteItem(v.item); }
      } else if v.OneSettlement? {
        if v.settlement in l.rows.settlements { DeleteSettlement(v.settlement); }
      } else {
        DeleteLeaf(v);
      }
    }

    /** Any DELETE with enforcement on; a key that is not there deletes nothing. */
    method Delete(v: Victim)
      requires Valid(l)
      modifies this
      ensures Valid(l) && l == Deleted(old(l), v)
    {
      hide Installed, Constraints, ForeignKeys, Pruned, Shrunk;
      InstalledTracks(l, v);
      DeletedIsValid(l, v);
      PruningShrinks(l.rows, v);
      Prune(v);
      BalanceFixesLedger(old(l), l, Pruned(old(l).rows, v));
    }

    /******* Migrations *******/

    method CreateTriggers(tables: seq<TableName>)
      modifies this
      ensures l == old(l).(triggers := old(l).triggers + TriggersOn(Named(tables)))
    {
      ghost var l0 := l;
      assert l0.triggers + TriggersOn(Named(tables[..0])) == l0.triggers;
      for i := 0 to |tables|
        invariant l == l0.(triggers := l0.triggers + TriggersOn(Named(tables[..i])))
      {
        var t := tables[i];
        l := l.(triggers := l.triggers + {Trigger(t, Insert)});
        l := l.(triggers := l.triggers + {Trigger(t, Update)});
        l := l.(triggers := l.triggers + {Trigger(t, Operation.Delete)});
        TriggersOnMore(l0.triggers, tables, i);
      }
      assert tables[..|tables|] == tables;
    }

    method DropTriggers(tables: seq<TableName>)
      modifies this
      ensures l == old(l).(triggers := Elsewhere(old(l).triggers, Named(tables)))
    {
      ghost var l0 := l;
      assert Elsewhere(l0.triggers, Named(tables[..0])) == l0.triggers;
      for i := 0 to |tables|
        invariant l == l0.(triggers := Elsewhere(l0.triggers, Named(tables[..i])))
      {
        var t := tables[i];
        l := l.(triggers := l.triggers - {Trigger(t, Insert)});
        l := l.(triggers := l.triggers - {Trigger(t, Update)});
        l := l.(triggers := l.triggers - {Trigger(t, Operation.Delete)});
        ElsewhereLess(l0.triggers, tables, i);
      }
      assert tables[..|tables|] == tables;
    }

    /** DROP TABLE takes the rows and the triggers on the table with it, firing none of them. */
    method DropTable(t: TableName)
      modifies this
      ensures l == Dropped(old(l), t)
    {
      l := l.(rows := Emptied(l.rows, t), tables := l.tables - {t}, triggers := Elsewhere(l.triggers, {t}));
      if t == PriceSnapshots {
        l := l.(snapshots := map[]);
      } else if t == AccountingState {
        l := l.(revision := None);
      }
    }

    method CreateTablesOfV049()
      modifies this
      ensures l == old(l).(tables := Applied049(old(l)).tables, revision := Applied049(old(l)).revision)
    {
      hide TriggersOn;
      l := l.(tables := l.tables + {AccountingState});
      if l.revision.None? {
        l := l.(revision := Some(0));
      }
      l := l.(tables := l.tables + {PriceSnapshots});
      l := l.(tables := l.tables + {Metering});
      l := l.(tables := l.tables + {Settlements});
      l := l.(tables := l.tables + {Observations});
      assert l.tables == old(l).tables + METERING_TABLES + {PriceSnapshots, AccountingState};
    }

    method ApplyV049()
      modifies this
      ensures l == Applied049(old(l))
    {
      hide TriggersOn, Named;
      CreateTablesOfV049();
      CreateTriggers(TRIGGERED_BY_V049);
      TriggeredByV049();
    }

    method ApplyV050()
      modifies this
      ensures l == Applied050(old(l))
    {
      l := l.(tables := l.tables + {Owners});
      l := l.(tables := l.tables + {Runs});
      CreateTriggers([Owners, Runs]);
      assert Named([Owners, Runs]) == ATTRIBUTION_TABLES;
      assert l.tables == Applied050(old(l)).tables;
    }

    method DropMeteringTables()
      modifies this
      ensures l == WithoutMetering(old(l))
    {
      DropTable(Observations);
      DropTable(Settlements);
      DropTable(Metering);
      DropTable(PriceSnapshots);
      DropTable(AccountingState);
    }

    method DropEverythingOfV049()
      modifies this
      ensures l == RolledBack049(old(l))
    {
      hide Elsewhere, RolledBack049, WithoutMetering;
      DropTriggers(TRIGGERED_BY_V049);
      TriggeredByV049();
      DropsRollBackV049(old(l));
      DropMeteringTables();
    }

    /** Refuses, before it changes anything, while a metering or settlement row exists. */
    method RollbackV049() returns (ok: bool)
      modifies this
      ensures ok <==> Releases049(old(l))
      ensures l == if ok then RolledBack049(old(l)) else old(l)
    {
      if Metering !in l.tables || l.rows.metering != map[] {
        return false;
      }
      if Settlements !in l.tables || l.rows.settlements != map[] {
        return false;
      }
      DropEverythingOfV049();
      return true;
    }

    method RollbackV050() returns (ok: bool)
      modifies this
      ensures ok <==> Releases050(old(l))
      ensures l == if ok then RolledBack050(old(l)) else old(l)
    {
      if Runs !in l.tables || l.rows.runs != map[] {
        return false;
      }
      if Owners !in l.tables || l.rows.owners != map[] {
        return false;
      }
      DropTable(Runs);
      DropTable(Owners);
      assert l.tables == RolledBack050(old(l)).tables;
      assert l.triggers == RolledBack050(old(l)).triggers;
      return true;
    }

    /** `yoyo rollback` of both, newest first; a refusal ends it. */
    method RollBackBoth() returns (ok: bool)
      modifies this
      ensures ok <==> Releases050(old(l)) && Releases049(RolledBack050(old(l)))
      ensures l == BothRolledBack(old(l))
    {
      ok := RollbackV050();
      if ok {
        ok := RollbackV049();
      }
    }
  }
}
