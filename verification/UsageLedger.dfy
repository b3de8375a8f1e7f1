/**
 The durable usage ledger of V021, V024, V049 and V050: a cascade tree of events, items,
 receipts, metering rows, settlement revisions and meter observations, next to a few flat
 tables, and an accounting revision that triggers keep in step with all of them.
 */
module UsageLedger {
  import opened Common

  datatype ItemKey = ItemKey(event: string, ordinal: int)
  datatype SettlementKey = SettlementKey(item: ItemKey, revision: string)
  datatype OwnerKey = OwnerKey(session: string, epoch: int)

  datatype Event = Event(
    execution: string, callIndex: int, startedAt: int, completedAt: Option<int>,
    cost: int, billed: int, estimated: int, rest: string)
  datatype Item = Item(cost: int, billed: int, estimated: int, rest: string)
  datatype Receipt = Receipt(confirmed: bool, amount: Option<int>, usd: Option<int>, fx: int, rest: string)
  datatype Meter = Meter(snapshot: Option<string>, meters: string)
  datatype Settlement = Settlement(number: int, payload: string)
  datatype Baseline = Baseline(cost: int, billed: int, estimated: int, rest: string)

  /** The rows of every table whose changes the accounting revision tracks. */
  datatype Rows = Rows(
    events: map<string, Event>,
    items: map<ItemKey, Item>,
    receipts: map<ItemKey, Receipt>,
    metering: map<ItemKey, Meter>,
    settlements: map<SettlementKey, Settlement>,
    observations: map<SettlementKey, string>,
    baselines: map<OwnerKey, Baseline>,
    ledgerState: Option<string>,
    receiptState: Option<string>,
    owners: map<OwnerKey, string>,
    runs: map<string, string>)
  {
    function Size(): nat {
      |events| + |items| + |receipts| + |metering| + |settlements| + |observations| + |baselines|
      + (if ledgerState.Some? then 1 else 0) + (if receiptState.Some? then 1 else 0) + |owners| + |runs|
    }
  }

  datatype TableName =
    | Events | Items | Receipts | Metering | Settlements | Observations | Baselines
    | LedgerState | ReceiptState | Owners | Runs | PriceSnapshots | AccountingState

  datatype Operation = Insert | Update | Delete

  datatype Trigger = Trigger(table: TableName, operation: Operation)

  datatype Ledger = Ledger(
    rows: Rows,
    snapshots: map<string, string>,
    tables: set<TableName>,
    triggers: set<Trigger>,
    revision: Option<nat>)

  const BASE_TABLES: set<TableName> := {Events, Items, Receipts, Baselines, LedgerState, ReceiptState}
  const METERING_TABLES: set<TableName> := {Metering, Settlements, Observations}
  const ATTRIBUTION_TABLES: set<TableName> := {Owners, Runs}

  /** What V049 leaves on top of V024. */
  const METERED_TABLES: set<TableName> := BASE_TABLES + METERING_TABLES + {PriceSnapshots, AccountingState}

  function TriggersOn(ts: set<TableName>): set<Trigger> {
    set t, o | t in ts && o in {Insert, Update, Delete} :: Trigger(t, o)
  }

  /******* Constraints *******/

  predicate CostOk(cost: int, billed: int, estimated: int) {
    cost >= 0 && billed >= 0 && estimated >= 0 && cost == billed + estimated
  }

  predicate EventOk(e: Event) {
    && CostOk(e.cost, e.billed, e.estimated) && e.callIndex >= 0 && e.startedAt >= 0
    && (e.completedAt.Some? ==> e.completedAt.value >= e.startedAt)
  }

  predicate ItemOk(k: ItemKey, i: Item) {
    k.ordinal >= 0 && CostOk(i.cost, i.billed, i.estimated)
  }

  predicate ReceiptOk(r: Receipt) {
    && r.fx > 0
    && (r.amount.Some? ==> r.amount.value >= 0) && (r.usd.Some? ==> r.usd.value >= 0)
    && (if r.confirmed then r.amount.Some? && r.usd.Some? else r.usd.None?)
  }

  /** CHECK and UNIQUE constraints: they speak of rows of one table only. */
  ghost predicate RowConstraints(r: Rows) {
    && (forall e :: e in r.events ==> EventOk(r.events[e]))
    && (forall e, f :: e in r.events && f in r.events && e != f ==>
          (r.events[e].execution, r.events[e].callIndex) != (r.events[f].execution, r.events[f].callIndex))
    && (forall k :: k in r.items ==> ItemOk(k, r.items[k]))
    && (forall k :: k in r.receipts ==> ReceiptOk(r.receipts[k]))
    && (forall s :: s in r.settlements ==> r.settlements[s].number > 0)
    && (forall s, q :: s in r.settlements && q in r.settlements && s.item == q.item && s != q ==>
          r.settlements[s].number != r.settlements[q].number)
    && (forall k :: k in r.baselines ==> CostOk(r.baselines[k].cost, r.baselines[k].billed, r.baselines[k].estimated))
  }

  /** FOREIGN KEY constraints: no row without its parent. */
  ghost predicate ForeignKeys(r: Rows, snapshots: map<string, string>) {
    && (forall k :: k in r.items ==> k.event in r.events)
    && (forall k :: k in r.receipts ==> k in r.items)
    && (forall k :: k in r.metering ==> k in r.items)
    && (forall k :: k in r.metering && r.metering[k].snapshot.Some? ==> r.metering[k].snapshot.value in snapshots)
    && (forall s :: s in r.settlements ==> s.item in r.items)
    && (forall s :: s in r.observations ==> s in r.settlements)
  }

  ghost predicate Constraints(r: Rows, snapshots: map<string, string>) {
    RowConstraints(r) && ForeignKeys(r, snapshots)
  }

  predicate NoMetering(r: Rows) {
    r.metering == map[] && r.settlements == map[]
  }

  predicate NoAttribution(r: Rows) {
    r.runs == map[] && r.owners == map[]
  }

  /** V049 is applied, V050 wholly or not at all: the counter exists, and so do all triggers. */
  predicate Installed(l: Ledger) {
    && l.revision.Some?
    && (l.tables == METERED_TABLES || l.tables == METERED_TABLES + ATTRIBUTION_TABLES)
    && l.triggers == TriggersOn(l.tables - {PriceSnapshots, AccountingState})
    && (l.tables == METERED_TABLES ==> NoAttribution(l.rows))
  }

  ghost predicate Valid(l: Ledger) {
    Installed(l) && Constraints(l.rows, l.snapshots)
  }

  /** The body of every trigger: UPDATE usage_accounting_state SET revision = revision + 1. */
  function Fire(l: Ledger, t: TableName, o: Operation): Ledger {
    if Trigger(t, o) in l.triggers && l.revision.Some?
    then l.(revision := Some(l.revision.value + 1)) else l
  }

  /******* What a cascading delete removes *******/

  function PruneSettlement(r: Rows, s: SettlementKey): Rows {
    r.(settlements := r.settlements - {s}, observations := r.observations - {s})
  }

  function PruneItem(r: Rows, k: ItemKey): Rows {
    r.(items := r.items - {k},
       receipts := r.receipts - {k},
       metering := r.metering - {k},
       settlements := map s | s in r.settlements && s.item != k :: r.settlements[s],
       observations := map s | s in r.observations && s.item != k :: r.observations[s])
  }

  function PruneEvent(r: Rows, e: string): Rows {
    r.(events := r.events - {e},
       items := map k | k in r.items && k.event != e :: r.items[k],
       receipts := map k | k in r.receipts && k.event != e :: r.receipts[k],
       metering := map k | k in r.metering && k.event != e :: r.metering[k],
       settlements := map s | s in r.settlements && s.item.event != e :: r.settlements[s],
       observations := map s | s in r.observations && s.item.event != e :: r.observations[s])
  }

  datatype Victim =
    | OneEvent(event: string)
    | OneItem(item: ItemKey)
    | OneReceipt(item: ItemKey)
    | OneMeter(item: ItemKey)
    | OneSettlement(settlement: SettlementKey)
    | OneObservation(settlement: SettlementKey)
    | OneBaseline(owner: OwnerKey)
    | OneOwner(owner: OwnerKey)
    | OneRun(run: string)
    | TheLedgerState
    | TheReceiptState

  function Pruned(r: Rows, v: Victim): Rows {
    match v
    case OneEvent(e) => if e in r.events then PruneEvent(r, e) else r
    case OneItem(k) => if k in r.items then PruneItem(r, k) else r
    case OneReceipt(k) => r.(receipts := r.receipts - {k})
    case OneMeter(k) => r.(metering := r.metering - {k})
    case OneSettlement(s) => if s in r.settlements then PruneSettlement(r, s) else r
    case OneObservation(s) => r.(observations := r.observations - {s})
    case OneBaseline(k) => r.(baselines := r.baselines - {k})
    case OneOwner(k) => r.(owners := r.owners - {k})
    case OneRun(k) => r.(runs := r.runs - {k})
    case TheLedgerState => r.(ledgerState := None)
    case TheReceiptState => r.(receiptState := None)
  }

  /******* Deleting: fewer rows, same constraints *******/

  lemma SubsetSize<K>(a: set<K>, b: set<K>)
    requires a <= b
    ensures |a| <= |b| && (a != b ==> |a| < |b|)
  {
    if a != {} {
      var x :| x in a;
      SubsetSize(a - {x}, b - {x});
    } else if b != {} {
      var x :| x in b;
      assert |b| >= |{x}|;
    }
  }

  lemma WithinSize<K, V>(m: map<K, V>, n: map<K, V>)
    requires Within(m, n)
    ensures |m| <= |n| && (m != n ==> |m| < |n|)
  {
    SubsetSize(m.Keys, n.Keys);
    if m.Keys == n.Keys { assert m == n; }
  }

  ghost predicate Within<K, V>(m: map<K, V>, n: map<K, V>) {
    forall k :: k in m ==> k in n && m[k] == n[k]
  }

  /** `p` holds some of the rows of `r`, each unchanged. */
  ghost predicate Fewer(p: Rows, r: Rows) {
    && Within(p.events, r.events) && Within(p.items, r.items) && Within(p.receipts, r.receipts)
    && Within(p.metering, r.metering) && Within(p.settlements, r.settlements)
    && Within(p.observations, r.observations) && Within(p.baselines, r.baselines)
    && (p.ledgerState == r.ledgerState || p.ledgerState.None?)
    && (p.receiptState == r.receiptState || p.receiptState.None?)
    && Within(p.owners, r.owners) && Within(p.runs, r.runs)
  }

  lemma EventPruneIsFewer(r: Rows, e: string)
    ensures Fewer(PruneEvent(r, e), r)
  {
  }

  lemma ItemPruneIsFewer(r: Rows, k: ItemKey)
    ensures Fewer(PruneItem(r, k), r)
  {
  }

  lemma SettlementPruneIsFewer(r: Rows, s: SettlementKey)
    ensures Fewer(PruneSettlement(r, s), r)
  {
  }

  lemma LeafPruneIsFewer(r: Rows, v: Victim)
    requires !v.OneEvent? && !v.OneItem? && !v.OneSettlement?
    ensures Fewer(Pruned(r, v), r)
  {
  }

  lemma PrunedIsFewer(r: Rows, v: Victim)
    ensures Fewer(Pruned(r, v), r)
  {
    if v.OneEvent? {
      EventPruneIsFewer(r, v.event);
    } else if v.OneItem? {
      ItemPruneIsFewer(r, v.item);
    } else if v.OneSettlement? {
      SettlementPruneIsFewer(r, v.settlement);
    } else {
      LeafPruneIsFewer(r, v);
    }
  }

  lemma FewerIsSmaller(p: Rows, r: Rows)
    requires Fewer(p, r)
    ensures p.Size() <= r.Size()
    ensures p != r ==> p.Size() < r.Size()
  {
    WithinSize(p.events, r.events);
    WithinSize(p.items, r.items);
    WithinSize(p.receipts, r.receipts);
    WithinSize(p.metering, r.metering);
    WithinSize(p.settlements, r.settlements);
    WithinSize(p.observations, r.observations);
    WithinSize(p.baselines, r.baselines);
    WithinSize(p.owners, r.owners);
    WithinSize(p.runs, r.runs);
  }

  lemma PruningShrinks(r: Rows, v: Victim)
    ensures Pruned(r, v).Size() <= r.Size()
    ensures Pruned(r, v) != r ==> Pruned(r, v).Size() < r.Size()
  {
    PrunedIsFewer(r, v);
    FewerIsSmaller(Pruned(r, v), r);
  }

  lemma FewerKeepsRowConstraints(p: Rows, r: Rows)
    requires Fewer(p, r) && RowConstraints(r)
    ensures RowConstraints(p)
  {
  }

  lemma EventPruneKeepsForeignKeys(r: Rows, snapshots: map<string, string>, e: string)
    requires ForeignKeys(r, snapshots)
    ensures ForeignKeys(PruneEvent(r, e), snapshots)
  {
  }

  lemma ItemPruneKeepsForeignKeys(r: Rows, snapshots: map<string, string>, k: ItemKey)
    requires ForeignKeys(r, snapshots)
    ensures ForeignKeys(PruneItem(r, k), snapshots)
  {
  }

  lemma PruningKeepsForeignKeys(r: Rows, snapshots: map<string, string>, v: Victim)
    requires ForeignKeys(r, snapshots)
    ensures ForeignKeys(Pruned(r, v), snapshots)
  {
    hide PruneEvent, PruneItem;
    if v.OneEvent? {
      EventPruneKeepsForeignKeys(r, snapshots, v.event);
    } else if v.OneItem? {
      ItemPruneKeepsForeignKeys(r, snapshots, v.item);
    }
  }

  lemma PruningKeepsConstraints(r: Rows, snapshots: map<string, string>, v: Victim)
    requires Constraints(r, snapshots)
    ensures Constraints(Pruned(r, v), snapshots)
  {
    PrunedIsFewer(r, v);
    FewerKeepsRowConstraints(Pruned(r, v), r);
    PruningKeepsForeignKeys(r, snapshots, v);
  }

  /** Deleting an event takes its whole subtree, nothing else, and leaves no orphan. */
  lemma EventDeleteIsExact(r: Rows, snapshots: map<string, string>, e: string)
    requires Constraints(r, snapshots) && e in r.events
    ensures var p := PruneEvent(r, e);
      && Constraints(p, snapshots) && Fewer(p, r)
      && p.events == r.events - {e}
      && (forall k :: k in r.items ==> (k in p.items <==> k.event != e))
      && (forall k :: k in r.receipts ==> (k in p.receipts <==> k.event != e))
      && (forall k :: k in r.metering ==> (k in p.metering <==> k.event != e))
      && (forall s :: s in r.settlements ==> (s in p.settlements <==> s.item.event != e))
      && (forall s :: s in r.observations ==> (s in p.observations <==> s.item.event != e))
      && p.baselines == r.baselines && p.owners == r.owners && p.runs == r.runs
      && p.ledgerState == r.ledgerState && p.receiptState == r.receiptState
  {
    EventPruneIsFewer(r, e);
    PruningKeepsConstraints(r, snapshots, OneEvent(e));
  }

  /** The rows shrink to `p`; one trigger fires per row removed. */
  function Shrunk(l: Ledger, p: Rows): Ledger
    requires l.revision.Some? && p.Size() <= l.rows.Size()
  {
    l.(rows := p, revision := Some(l.revision.value + (l.rows.Size() - p.Size())))
  }

  function Deleted(l: Ledger, v: Victim): Ledger
    requires l.revision.Some?
  {
    PruningShrinks(l.rows, v);
    Shrunk(l, Pruned(l.rows, v))
  }

  /******* What the migrations mean *******/

  /** CREATE TABLE / TRIGGER IF NOT EXISTS, INSERT OR IGNORE INTO usage_accounting_state. */
  function Applied049(l: Ledger): Ledger {
    l.(tables := l.tables + METERING_TABLES + {PriceSnapshots, AccountingState},
       triggers := l.triggers + TriggersOn(BASE_TABLES + METERING_TABLES),
       revision := if l.revision.Some? then l.revision else Some(0))
  }

  function Applied050(l: Ledger): Ledger {
    l.(tables := l.tables + ATTRIBUTION_TABLES, triggers := l.triggers + TriggersOn(ATTRIBUTION_TABLES))
  }

  function Elsewhere(triggers: set<Trigger>, ts: set<TableName>): set<Trigger> {
    set t | t in triggers && t.table !in ts
  }

  function Emptied(r: Rows, t: TableName): Rows {
    match t
    case Events => r.(events := map[])
    case Items => r.(items := map[])
    case Receipts => r.(receipts := map[])
    case Metering => r.(metering := map[])
    case Settlements => r.(settlements := map[])
    case Observations => r.(observations := map[])
    case Baselines => r.(baselines := map[])
    case LedgerState => r.(ledgerState := None)
    case ReceiptState => r.(receiptState := None)
    case Owners => r.(owners := map[])
    case Runs => r.(runs := map[])
    case _ => r
  }

  function Dropped(l: Ledger, t: TableName): Ledger {
    Ledger(
      Emptied(l.rows, t),
      if t == PriceSnapshots then map[] else l.snapshots,
      l.tables - {t},
      Elsewhere(l.triggers, {t}),
      if t == AccountingState then None else l.revision)
  }

  function RolledBack049(l: Ledger): Ledger {
    l.(rows := l.rows.(metering := map[], settlements := map[], observations := map[]),
       snapshots := map[],
       tables := l.tables - METERING_TABLES - {PriceSnapshots, AccountingState},
       triggers := Elsewhere(l.triggers, BASE_TABLES + METERING_TABLES + {PriceSnapshots, AccountingState}),
       revision := None)
  }

  function RolledBack050(l: Ledger): Ledger {
    l.(rows := l.rows.(runs := map[], owners := map[]),
       tables := l.tables - ATTRIBUTION_TABLES,
       triggers := Elsewhere(l.triggers, ATTRIBUTION_TABLES))
  }

  /** What the guard of each rollback looks for. */
  predicate Releases049(l: Ledger) {
    {Metering, Settlements} <= l.tables && NoMetering(l.rows)
  }

  predicate Releases050(l: Ledger) {
    ATTRIBUTION_TABLES <= l.tables && NoAttribution(l.rows)
  }

  /** V050 is rolled back, then V049; the first refusal ends it. */
  function BothRolledBack(l: Ledger): Ledger {
    if !Releases050(l) then l
    else if !Releases049(RolledBack050(l)) then RolledBack050(l)
    else RolledBack049(RolledBack050(l))
  }
}
