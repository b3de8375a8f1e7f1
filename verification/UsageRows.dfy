/**
 The usage ledger row by row: what a delete takes along, which rows the tables accept, what
 every reachable ledger satisfies, and how far the accounting revision moves each time.
 */
module UsageRows {
  import opened Common
  import opened UsageLedger
  import opened UsageStore
  import opened UsageLaws

  /******* Deletes *******/

  function ItemsOf(keys: set<ItemKey>, e: string): set<ItemKey> {
    set k | k in keys && k.event == e
  }

  function SettledOf(keys: set<SettlementKey>, e: string): set<SettlementKey> {
    set s | s in keys && s.item.event == e
  }

  function SettledFor(keys: set<SettlementKey>, k: ItemKey): set<SettlementKey> {
    set s | s in keys && s.item == k
  }

  /** `after` is `before` without the rows `gone`; every other row keeps its value. */
  ghost predicate Loses<K, V>(before: map<K, V>, after: map<K, V>, gone: set<K>) {
    after.Keys == before.Keys - gone && forall k :: k in after ==> after[k] == before[k]
  }

  lemma LosesCount<K, V>(before: map<K, V>, after: map<K, V>, gone: set<K>)
    requires Loses(before, after, gone) && gone <= before.Keys
    ensures |before| == |after| + |gone|
  {
    assert before.Keys == after.Keys + gone;
    assert |before.Keys| == |after.Keys| + |gone|;
  }

  lemma LosesNothing<K, V>(m: map<K, V>)
    ensures Loses(m, m, {})
  {
  }

  /** The tables outside the cascade tree. */
  predicate SameFlatTables(a: Rows, b: Rows) {
    && a.baselines == b.baselines && a.ledgerState == b.ledgerState && a.receiptState == b.receiptState
    && a.owners == b.owners && a.runs == b.runs
  }

  /** Everything that hangs below event `e` is gone, and nothing else. */
  ghost predicate EventGone(r: Rows, d: Rows, e: string) {
    && Loses(r.events, d.events, {e})
    && Loses(r.items, d.items, ItemsOf(r.items.Keys, e))
    && Loses(r.receipts, d.receipts, ItemsOf(r.receipts.Keys, e))
    && Loses(r.metering, d.metering, ItemsOf(r.metering.Keys, e))
    && Loses(r.settlements, d.settlements, SettledOf(r.settlements.Keys, e))
    && Loses(r.observations, d.observations, SettledOf(r.observations.Keys, e))
    && SameFlatTables(r, d)
  }

  lemma PruneEventLoses(r: Rows, e: string)
    requires e in r.events
    ensures EventGone(r, PruneEvent(r, e), e)
  {
  }

  lemma EventGoneCount(r: Rows, d: Rows, e: string)
    requires e in r.events && EventGone(r, d, e)
    ensures r.Size() == d.Size() + 1
      + |ItemsOf(r.items.Keys, e)| + |ItemsOf(r.receipts.Keys, e)| + |ItemsOf(r.metering.Keys, e)|
      + |SettledOf(r.settlements.Keys, e)| + |SettledOf(r.observations.Keys, e)|
  {
    hide Loses, ItemsOf, SettledOf;
    SubsetsOf(r, e);
    LosesCount(r.events, d.events, {e});
    LosesCount(r.items, d.items, ItemsOf(r.items.Keys, e));
    LosesCount(r.receipts, d.receipts, ItemsOf(r.receipts.Keys, e));
    LosesCount(r.metering, d.metering, ItemsOf(r.metering.Keys, e));
    LosesCount(r.settlements, d.settlements, SettledOf(r.settlements.Keys, e));
    LosesCount(r.observations, d.observations, SettledOf(r.observations.Keys, e));
  }

  /** Deleting an event: its whole subtree goes, nothing else, and the revision counts every row. */
  lemma EventDelete(l: Ledger, e: string)
    requires Valid(l) && e in l.rows.events
    ensures l.revision.Some?
    ensures var r, d := l.rows, Deleted(l, OneEvent(e));
      && EventGone(r, d.rows, e) && d.snapshots == l.snapshots
      && d.revision == Some(l.revision.value + 1
           + |ItemsOf(r.items.Keys, e)| + |ItemsOf(r.receipts.Keys, e)| + |ItemsOf(r.metering.Keys, e)|
           + |SettledOf(r.settlements.Keys, e)| + |SettledOf(r.observations.Keys, e)|)
  {
    hide Constraints, Installed, EventGone, ItemsOf, SettledOf, PruneEvent, Rows.Size;
    ValidCounts(l);
    PruneEventLoses(l.rows, e);
    EventGoneCount(l.rows, PruneEvent(l.rows, e), e);
  }

  lemma SubsetsOf(r: Rows, e: string)
    ensures ItemsOf(r.items.Keys, e) <= r.items.Keys && ItemsOf(r.receipts.Keys, e) <= r.receipts.Keys
    ensures ItemsOf(r.metering.Keys, e) <= r.metering.Keys
    ensures SettledOf(r.settlements.Keys, e) <= r.settlements.Keys
    ensures SettledOf(r.observations.Keys, e) <= r.observations.Keys
  {
  }

  /** Item `k`, its receipt, metering row, settlements and observations are gone, nothing else. */
  ghost predicate ItemGone(r: Rows, d: Rows, k: ItemKey) {
    && Loses(r.items, d.items, {k}) && Loses(r.receipts, d.receipts, {k}) && Loses(r.metering, d.metering, {k})
    && Loses(r.settlements, d.settlements, SettledFor(r.settlements.Keys, k))
    && Loses(r.observations, d.observations, SettledFor(r.observations.Keys, k))
    && d.events == r.events && SameFlatTables(r, d)
  }

  lemma PruneItemLoses(r: Rows, k: ItemKey)
    ensures ItemGone(r, PruneItem(r, k), k)
  {
  }

  function One<K, V>(m: map<K, V>, k: K): (gone: set<K>)
    ensures gone <= m.Keys && |gone| == if k in m then 1 else 0
  {
    if k in m then {k} else {}
  }

  lemma LosesOne<K, V>(before: map<K, V>, after: map<K, V>, k: K)
    requires Loses(before, after, {k})
    ensures |before| == |after| + |One(before, k)|
  {
    LosesCount(before, after, One(before, k));
  }

  lemma ItemGoneCount(r: Rows, d: Rows, k: ItemKey)
    requires k in r.items && ItemGone(r, d, k)
    ensures r.Size() == d.Size() + 1 + |One(r.receipts, k)| + |One(r.metering, k)|
      + |SettledFor(r.settlements.Keys, k)| + |SettledFor(r.observations.Keys, k)|
  {
    hide Loses, SettledFor, One;
    LosesOne(r.items, d.items, k);
    LosesOne(r.receipts, d.receipts, k);
    LosesOne(r.metering, d.metering, k);
    SettledForSubsets(r, k);
    LosesCount(r.settlements, d.settlements, SettledFor(r.settlements.Keys, k));
    LosesCount(r.observations, d.observations, SettledFor(r.observations.Keys, k));
  }

  /** Deleting an item: its receipt, metering row, settlements and their observations go along. */
  lemma ItemDelete(l: Ledger, k: ItemKey)
    requires Valid(l) && k in l.rows.items
    ensures l.revision.Some?
    ensures var r, d := l.rows, Deleted(l, OneItem(k));
      && ItemGone(r, d.rows, k) && d.snapshots == l.snapshots
      && d.revision == Some(l.revision.value + 1 + |One(r.receipts, k)| + |One(r.metering, k)|
           + |SettledFor(r.settlements.Keys, k)| + |SettledFor(r.observations.Keys, k)|)
  {
    hide Constraints, Installed, ItemGone, SettledFor, One, PruneItem, Rows.Size;
    ValidCounts(l);
    PruneItemLoses(l.rows, k);
    ItemGoneCount(l.rows, PruneItem(l.rows, k), k);
  }

  lemma SettledForSubsets(r: Rows, k: ItemKey)
    ensures SettledFor(r.settlements.Keys, k) <= r.settlements.Keys
    ensures SettledFor(r.observations.Keys, k) <= r.observations.Keys
  {
  }

  /** Settlement `s` and its observation are gone, nothing else. */
  ghost predicate SettlementGone(r: Rows, d: Rows, s: SettlementKey) {
    && Loses(r.settlements, d.settlements, {s}) && Loses(r.observations, d.observations, {s})
    && d.events == r.events && d.items == r.items && d.receipts == r.receipts && d.metering == r.metering
    && SameFlatTables(r, d)
  }

  lemma PruneSettlementLoses(r: Rows, s: SettlementKey)
    requires s in r.settlements
    ensures SettlementGone(r, PruneSettlement(r, s), s)
  {
  }

  lemma SettlementGoneCount(r: Rows, d: Rows, s: SettlementKey)
    requires s in r.settlements && SettlementGone(r, d, s)
    ensures r.Size() == d.Size() + 1 + |One(r.observations, s)|
  {
    hide One, Loses;
    LosesOne(r.settlements, d.settlements, s);
    LosesOne(r.observations, d.observations, s);
  }

  /** Deleting a settlement revision takes its observation along. */
  lemma SettlementDelete(l: Ledger, s: SettlementKey)
    requires Valid(l) && s in l.rows.settlements
    ensures l.revision.Some?
    ensures var r, d := l.rows, Deleted(l, OneSettlement(s));
      && SettlementGone(r, d.rows, s) && d.snapshots == l.snapshots
      && d.revision == Some(l.revision.value + 1 + |One(r.observations, s)|)
  {
    hide Constraints, Installed, SettlementGone, One, PruneSettlement, Rows.Size;
    ValidCounts(l);
    PruneSettlementLoses(l.rows, s);
    SettlementGoneCount(l.rows, PruneSettlement(l.rows, s), s);
  }

  /** A row nothing refers to goes alone: `d` differs from `r` in that row only. */
  predicate LeafGone(r: Rows, d: Rows, v: Victim) {
    match v
    case OneReceipt(k) => d == r.(receipts := r.receipts - {k})
    case OneMeter(k) => d == r.(metering := r.metering - {k})
    case OneObservation(s) => d == r.(observations := r.observations - {s})
    case OneBaseline(o) => d == r.(baselines := r.baselines - {o})
    case OneOwner(o) => d == r.(owners := r.owners - {o})
    case OneRun(x) => d == r.(runs := r.runs - {x})
    case TheLedgerState => d == r.(ledgerState := None)
    case TheReceiptState => d == r.(receiptState := None)
    case _ => false
  }

  lemma LeafIsGone(r: Rows, v: Victim)
    requires IsLeaf(v)
    ensures LeafGone(r, Pruned(r, v), v)
  {
  }

  /** Deleting a row nothing refers to: that row goes, and the revision counts it if it was there. */
  lemma LeafDelete(l: Ledger, v: Victim)
    requires Valid(l) && IsLeaf(v)
    ensures l.revision.Some?
    ensures var d := Deleted(l, v);
      LeafGone(l.rows, d.rows, v) && d.snapshots == l.snapshots
      && d.revision == Some(l.revision.value + if HasLeaf(l.rows, v) then 1 else 0)
  {
    hide Constraints, Installed, Rows.Size, HasLeaf, LeafGone, Pruned;
    ValidCounts(l);
    LeafIsGone(l.rows, v);
    if HasLeaf(l.rows, v) {
      LeafCountsOne(l.rows, v);
    } else {
      NoLeaf(l.rows, v);
    }
  }

  /** The rows left by a delete, victim by victim; an absent key leaves all of them. */
  ghost predicate Gone(r: Rows, d: Rows, v: Victim) {
    match v
    case OneEvent(e) => if e in r.events then EventGone(r, d, e) else d == r
    case OneItem(k) => if k in r.items then ItemGone(r, d, k) else d == r
    case OneSettlement(s) => if s in r.settlements then SettlementGone(r, d, s) else d == r
    case _ => LeafGone(r, d, v)
  }

  lemma PrunedIsGone(r: Rows, v: Victim)
    ensures Gone(r, Pruned(r, v), v)
  {
    hide EventGone, ItemGone, SettlementGone, PruneEvent, PruneItem, PruneSettlement;
    match v
    case OneEvent(e) => if e in r.events { PruneEventLoses(r, e); }
    case OneItem(k) => PruneItemLoses(r, k);
    case OneSettlement(s) => if s in r.settlements { PruneSettlementLoses(r, s); }
    case _ =>
  }

  /** The delete of a run, with or without the counter, changes rows as `Gone` says and nothing else. */
  lemma DeleteRemoves(l: Ledger, v: Victim)
    ensures var d := Step(l, DeleteRow(v));
      && Gone(l.rows, d.rows, v) && d.snapshots == l.snapshots && d.tables == l.tables && d.triggers == l.triggers
      && (l.revision.None? ==> d.revision.None?)
      && (l.revision.Some? ==> d == Deleted(l, v))
      && (l.revision.Some? && d.rows == l.rows ==> d == l)
  {
    hide Gone, Pruned, Rows.Size;
    PrunedIsGone(l.rows, v);
  }

  /******* Inserts and updates *******/

  /** `x` is a row of the ledger. */
  predicate Contains(r: Rows, x: Entry) {
    match x
    case EventRow(k, v) => k in r.events && r.events[k] == v
    case ItemRow(k, v) => k in r.items && r.items[k] == v
    case ReceiptRow(k, v) => k in r.receipts && r.receipts[k] == v
    case MeterRow(k, v) => k in r.metering && r.metering[k] == v
    case SettlementRow(k, v) => k in r.settlements && r.settlements[k] == v
    case ObservationRow(k, v) => k in r.observations && r.observations[k] == v
    case BaselineRow(k, v) => k in r.baselines && r.baselines[k] == v
    case LedgerStateRow(v) => r.ledgerState == Some(v)
    case ReceiptStateRow(v) => r.receiptState == Some(v)
    case OwnerRow(k, v) => k in r.owners && r.owners[k] == v
    case RunRow(k, v) => k in r.runs && r.runs[k] == v
  }

  /** Both would stand in the same table under the same primary key. */
  predicate SamePlace(x: Entry, y: Entry) {
    match x
    case EventRow(k, _) => y.EventRow? && y.event == k
    case ItemRow(k, _) => y.ItemRow? && y.item == k
    case ReceiptRow(k, _) => y.ReceiptRow? && y.item == k
    case MeterRow(k, _) => y.MeterRow? && y.item == k
    case SettlementRow(k, _) => y.SettlementRow? && y.settlement == k
    case ObservationRow(k, _) => y.ObservationRow? && y.settlement == k
    case BaselineRow(k, _) => y.BaselineRow? && y.owner == k
    case LedgerStateRow(_) => y.LedgerStateRow?
    case ReceiptStateRow(_) => y.ReceiptStateRow?
    case OwnerRow(k, _) => y.OwnerRow? && y.owner == k
    case RunRow(k, _) => y.RunRow? && y.run == k
  }

  lemma WritingTreeRow(r: Rows, x: Entry, y: Entry)
    requires x.EventRow? || x.ItemRow? || x.ReceiptRow? || x.MeterRow? || x.SettlementRow?
    ensures Contains(With(r, x), y) <==> y == x || (Contains(r, y) && !SamePlace(x, y))
  {
  }

  lemma WritingFlatRow(r: Rows, x: Entry, y: Entry)
    requires !x.EventRow? && !x.ItemRow? && !x.ReceiptRow? && !x.MeterRow? && !x.SettlementRow?
    ensures Contains(With(r, x), y) <==> y == x || (Contains(r, y) && !SamePlace(x, y))
  {
  }

  /** Writing a row changes what stands in its place and nothing else. */
  lemma WritingOneRow(r: Rows, x: Entry, y: Entry)
    ensures Contains(With(r, x), y) <==> y == x || (Contains(r, y) && !SamePlace(x, y))
  {
    hide Contains, With, SamePlace;
    if x.EventRow? || x.ItemRow? || x.ReceiptRow? || x.MeterRow? || x.SettlementRow? {
      WritingTreeRow(r, x, y);
    } else {
      WritingFlatRow(r, x, y);
    }
  }

  lemma PresentIff(r: Rows, x: Entry)
    ensures Present(r, x) <==> exists y :: SamePlace(x, y) && Contains(r, y)
  {
    if Present(r, x) {
      var y := match x
        case EventRow(k, _) => EventRow(k, r.events[k])
        case ItemRow(k, _) => ItemRow(k, r.items[k])
        case ReceiptRow(k, _) => ReceiptRow(k, r.receipts[k])
        case MeterRow(k, _) => MeterRow(k, r.metering[k])
        case SettlementRow(k, _) => SettlementRow(k, r.settlements[k])
        case ObservationRow(k, _) => ObservationRow(k, r.observations[k])
        case BaselineRow(k, _) => BaselineRow(k, r.baselines[k])
        case LedgerStateRow(_) => LedgerStateRow(r.ledgerState.value)
        case ReceiptStateRow(_) => ReceiptStateRow(r.receiptState.value)
        case OwnerRow(k, _) => OwnerRow(k, r.owners[k])
        case RunRow(k, _) => RunRow(k, r.runs[k]);
      assert SamePlace(x, y) && Contains(r, y);
    }
  }

  /** What the tables demand of a row, beside its own place. */
  ghost predicate Allowed(r: Rows, snapshots: map<string, string>, x: Entry) {
    match x
    case EventRow(id, e) =>
      && e.cost == e.billed + e.estimated && e.billed >= 0 && e.estimated >= 0 && e.callIndex >= 0 && e.startedAt >= 0
      && (e.completedAt.Some? ==> e.completedAt.value >= e.startedAt)
      && (forall k :: k in r.events && r.events[k].execution == e.execution && r.events[k].callIndex == e.callIndex ==>
            k == id)
    case ItemRow(k, i) =>
      && k.event in r.events && k.ordinal >= 0
      && i.cost == i.billed + i.estimated && i.billed >= 0 && i.estimated >= 0
    case ReceiptRow(k, c) =>
      && k in r.items && c.fx > 0
      && (c.amount.Some? ==> c.amount.value >= 0)
      && (if c.confirmed then c.amount.Some? && c.usd.Some? && c.usd.value >= 0 else c.usd.None?)
    case MeterRow(k, m) => k in r.items && (m.snapshot.Some? ==> m.snapshot.value in snapshots)
    case SettlementRow(s, v) =>
      && s.item in r.items && v.number > 0
      && (forall q :: q in r.settlements && q.item == s.item && r.settlements[q].number == v.number ==> q == s)
    case ObservationRow(s, _) => s in r.settlements
    case BaselineRow(_, b) => b.cost == b.billed + b.estimated && b.billed >= 0 && b.estimated >= 0
    case _ => true
  }

  /** A written event passes when it is sound and shares its call with no other row. */
  lemma EventRowIff(r: Rows, id: string, e: Event)
    requires RowConstraints(r)
    ensures RowConstraints(With(r, EventRow(id, e))) <==> EventOk(e) && FreshCall(r, id, e)
  {
    var w := r.events[id := e];
    assert (forall k :: k in w ==> EventOk(w[k])) <==> EventOk(e) by { assert w[id] == e; }
    assert SingleCalls(w) <==> FreshCall(r, id, e) by { CallsIff(r, id, e); }
  }

  ghost predicate FreshCall(r: Rows, id: string, e: Event) {
    forall k :: k in r.events && r.events[k].execution == e.execution && r.events[k].callIndex == e.callIndex ==>
      k == id
  }

  ghost predicate SingleCalls(m: map<string, Event>) {
    forall e, f :: e in m && f in m && e != f ==> (m[e].execution, m[e].callIndex) != (m[f].execution, m[f].callIndex)
  }

  lemma CallsIff(r: Rows, id: string, e: Event)
    requires SingleCalls(r.events)
    ensures SingleCalls(r.events[id := e]) <==> FreshCall(r, id, e)
  {
    var w := r.events[id := e];
    if SingleCalls(w) {
      assert forall k :: k in r.events && k != id ==> w[k] == r.events[k] && w[id] == e;
    }
  }

  lemma EventAllowedIff(r: Rows, snapshots: map<string, string>, id: string, e: Event)
    requires Constraints(r, snapshots)
    ensures Constraints(With(r, EventRow(id, e)), snapshots) <==> Allowed(r, snapshots, EventRow(id, e))
  {
    hide RowConstraints;
    EventRowIff(r, id, e);
  }

  ghost predicate FreshNumber(r: Rows, s: SettlementKey, v: Settlement) {
    forall q :: q in r.settlements && q.item == s.item && r.settlements[q].number == v.number ==> q == s
  }

  ghost predicate SingleNumbers(m: map<SettlementKey, Settlement>) {
    forall s, q :: s in m && q in m && s.item == q.item && s != q ==> m[s].number != m[q].number
  }

  lemma NumbersIff(r: Rows, s: SettlementKey, v: Settlement)
    requires SingleNumbers(r.settlements)
    ensures SingleNumbers(r.settlements[s := v]) <==> FreshNumber(r, s, v)
  {
    var w := r.settlements[s := v];
    if SingleNumbers(w) {
      assert forall q :: q in r.settlements && q != s ==> w[q] == r.settlements[q] && w[s] == v;
    }
  }

  lemma SettlementRowIff(r: Rows, s: SettlementKey, v: Settlement)
    requires RowConstraints(r)
    ensures RowConstraints(With(r, SettlementRow(s, v))) <==> v.number > 0 && FreshNumber(r, s, v)
  {
    var w := r.settlements[s := v];
    assert (forall q :: q in w ==> w[q].number > 0) <==> v.number > 0 by { assert w[s] == v; }
    assert SingleNumbers(w) <==> FreshNumber(r, s, v) by { NumbersIff(r, s, v); }
  }

  lemma SettlementAllowedIff(r: Rows, snapshots: map<string, string>, s: SettlementKey, v: Settlement)
    requires Constraints(r, snapshots)
    ensures Constraints(With(r, SettlementRow(s, v)), snapshots) <==> Allowed(r, snapshots, SettlementRow(s, v))
  {
    hide RowConstraints;
    SettlementRowIff(r, s, v);
    assert s in With(r, SettlementRow(s, v)).settlements;
  }

  /** Row constraints read five tables, foreign keys six. */
  lemma RowsRead(r: Rows, w: Rows)
    requires r.events == w.events && r.items == w.items && r.receipts == w.receipts
    requires r.settlements == w.settlements && r.baselines == w.baselines
    ensures RowConstraints(r) <==> RowConstraints(w)
  {
  }

  lemma KeysRead(r: Rows, w: Rows, snapshots: map<string, string>)
    requires r.events == w.events && r.items == w.items && r.receipts == w.receipts
    requires r.metering == w.metering && r.settlements == w.settlements && r.observations == w.observations
    ensures ForeignKeys(r, snapshots) <==> ForeignKeys(w, snapshots)
  {
  }

  lemma ItemRowIff(r: Rows, k: ItemKey, i: Item)
    requires RowConstraints(r)
    ensures RowConstraints(With(r, ItemRow(k, i))) <==> ItemOk(k, i)
  {
    hide ItemOk;
    assert r.items[k := i][k] == i;
  }

  lemma ItemAllowedIff(r: Rows, snapshots: map<string, string>, k: ItemKey, i: Item)
    requires Constraints(r, snapshots)
    ensures Constraints(With(r, ItemRow(k, i)), snapshots) <==> Allowed(r, snapshots, ItemRow(k, i))
  {
    hide RowConstraints;
    ItemRowIff(r, k, i);
    assert k in r.items[k := i];
  }

  lemma ReceiptRowIff(r: Rows, k: ItemKey, c: Receipt)
    requires RowConstraints(r)
    ensures RowConstraints(With(r, ReceiptRow(k, c))) <==> ReceiptOk(c)
  {
    hide ReceiptOk;
    assert r.receipts[k := c][k] == c;
  }

  lemma ReceiptAllowedIff(r: Rows, snapshots: map<string, string>, k: ItemKey, c: Receipt)
    requires Constraints(r, snapshots)
    ensures Constraints(With(r, ReceiptRow(k, c)), snapshots) <==> Allowed(r, snapshots, ReceiptRow(k, c))
  {
    hide RowConstraints;
    ReceiptRowIff(r, k, c);
    assert k in r.receipts[k := c];
  }

  lemma MeterAllowedIff(r: Rows, snapshots: map<string, string>, k: ItemKey, m: Meter)
    requires Constraints(r, snapshots)
    ensures Constraints(With(r, MeterRow(k, m)), snapshots) <==> Allowed(r, snapshots, MeterRow(k, m))
  {
    hide RowConstraints;
    RowsRead(r, With(r, MeterRow(k, m)));
    assert r.metering[k := m][k] == m;
  }

  lemma ObservationAllowedIff(r: Rows, snapshots: map<string, string>, s: SettlementKey, o: string)
    requires Constraints(r, snapshots)
    ensures Constraints(With(r, ObservationRow(s, o)), snapshots) <==> Allowed(r, snapshots, ObservationRow(s, o))
  {
    hide RowConstraints;
    RowsRead(r, With(r, ObservationRow(s, o)));
    assert s in r.observations[s := o];
  }

  lemma BaselineRowIff(r: Rows, k: OwnerKey, b: Baseline)
    requires RowConstraints(r)
    ensures RowConstraints(With(r, BaselineRow(k, b))) <==> CostOk(b.cost, b.billed, b.estimated)
  {
    hide CostOk;
    assert r.baselines[k := b][k] == b;
  }

  lemma BaselineAllowedIff(r: Rows, snapshots: map<string, string>, k: OwnerKey, b: Baseline)
    requires Constraints(r, snapshots)
    ensures Constraints(With(r, BaselineRow(k, b)), snapshots) <==> Allowed(r, snapshots, BaselineRow(k, b))
  {
    hide RowConstraints, ForeignKeys;
    BaselineRowIff(r, k, b);
    KeysRead(r, With(r, BaselineRow(k, b)), snapshots);
  }

  lemma FreeRowIsAllowed(r: Rows, snapshots: map<string, string>, x: Entry)
    requires Constraints(r, snapshots) && (x.LedgerStateRow? || x.ReceiptStateRow? || x.OwnerRow? || x.RunRow?)
    ensures Constraints(With(r, x), snapshots)
  {
    hide RowConstraints, ForeignKeys;
    RowsRead(r, With(r, x));
    KeysRead(r, With(r, x), snapshots);
  }

  lemma FreeRowAllowedIff(r: Rows, snapshots: map<string, string>, x: Entry)
    requires Constraints(r, snapshots) && (x.LedgerStateRow? || x.ReceiptStateRow? || x.OwnerRow? || x.RunRow?)
    ensures Constraints(With(r, x), snapshots) <==> Allowed(r, snapshots, x)
  {
    hide Constraints, With;
    FreeRowIsAllowed(r, snapshots, x);
  }

  lemma AllowedIff(r: Rows, snapshots: map<string, string>, x: Entry)
    requires Constraints(r, snapshots)
    ensures Constraints(With(r, x), snapshots) <==> Allowed(r, snapshots, x)
  {
    hide Constraints, Allowed, With;
    match x
    case EventRow(id, e) => EventAllowedIff(r, snapshots, id, e);
    case SettlementRow(s, v) => SettlementAllowedIff(r, snapshots, s, v);
    case ItemRow(k, i) => ItemAllowedIff(r, snapshots, k, i);
    case ReceiptRow(k, c) => ReceiptAllowedIff(r, snapshots, k, c);
    case MeterRow(k, m) => MeterAllowedIff(r, snapshots, k, m);
    case ObservationRow(s, o) => ObservationAllowedIff(r, snapshots, s, o);
    case BaselineRow(k, b) => BaselineAllowedIff(r, snapshots, k, b);
    case _ => FreeRowAllowedIff(r, snapshots, x);
  }

  /** One written row: exactly that row changes, and the revision moves by one. */
  ghost predicate WroteOne(l: Ledger, d: Ledger, x: Entry) {
    && d.revision == (if l.revision.Some? then Some(l.revision.value + 1) else None)
    && d.snapshots == l.snapshots && d.tables == l.tables && d.triggers == l.triggers
    && forall y :: Contains(d.rows, y) <==> y == x || (Contains(l.rows, y) && !SamePlace(x, y))
  }

  /** An insert goes through exactly when its place is free and the tables allow the row. */
  lemma InsertOutcome(l: Ledger, x: Entry)
    requires Stage(l) && TableOf(x) in l.tables
    ensures var d := Step(l, InsertRow(x));
      if !Present(l.rows, x) && Allowed(l.rows, l.snapshots, x) then WroteOne(l, d, x) else d == l
  {
    hide Stage, Constraints, Allowed, With, Contains, SamePlace, Present;
    WriteOutcome(l, x, Insert);
  }

  /** An update goes through exactly when the row is there and the tables allow the new one. */
  lemma UpdateOutcome(l: Ledger, x: Entry)
    requires Stage(l) && TableOf(x) in l.tables
    ensures var d := Step(l, UpdateRow(x));
      if Present(l.rows, x) && Allowed(l.rows, l.snapshots, x) then WroteOne(l, d, x) else d == l
  {
    hide Stage, Constraints, Allowed, With, Contains, SamePlace, Present;
    WriteOutcome(l, x, Update);
  }

  lemma StageFires(l: Ledger, x: Entry, o: Operation)
    requires Stage(l) && TableOf(x) in l.tables
    ensures Constraints(l.rows, l.snapshots)
    ensures l.revision.Some? ==> Trigger(TableOf(x), o) in l.triggers
  {
    hide Constraints;
    if Valid(l) {
      TrackedTablesHaveTriggers(l, x, o);
    }
  }

  lemma WriteOutcome(l: Ledger, x: Entry, o: Operation)
    requires Stage(l) && TableOf(x) in l.tables
    ensures var d := Put(l, x, o);
      if Allowed(l.rows, l.snapshots, x) then WroteOne(l, d, x) else d == l
  {
    hide Stage, Constraints, Allowed, With, Contains, SamePlace;
    StageFires(l, x, o);
    AllowedIff(l.rows, l.snapshots, x);
    forall y ensures Contains(With(l.rows, x), y) <==> y == x || (Contains(l.rows, y) && !SamePlace(x, y)) {
      WritingOneRow(l.rows, x, y);
    }
  }

  /** A price snapshot is stored once under its id; no row and no revision moves. */
  lemma SnapshotOutcome(l: Ledger, id: string, p: string)
    requires Valid(l)
    ensures var d := Step(l, PutSnapshot(id, p));
      && id in d.snapshots && d.snapshots[id] == (if id in l.snapshots then l.snapshots[id] else p)
      && (forall x :: x != id ==> (x in d.snapshots <==> x in l.snapshots))
      && (forall x :: x != id && x in l.snapshots ==> d.snapshots[x] == l.snapshots[x])
      && d.rows == l.rows && d.tables == l.tables && d.triggers == l.triggers && d.revision == l.revision
  {
    hide Constraints;
    InstalledHasCounter(l);
  }

  /******* Attribution comes and goes *******/

  /** V050 in place: both tables, and a trigger for every change of them. */
  predicate Attributed(l: Ledger) {
    && Owners in l.tables && Runs in l.tables
    && forall t, o :: t == Owners || t == Runs ==> Trigger(t, o) in l.triggers
  }

  predicate Unattributed(l: Ledger) {
    && Owners !in l.tables && Runs !in l.tables
    && forall t :: t in l.triggers ==> t.table != Owners && t.table != Runs
  }

  lemma EveryOperation(ts: set<TableName>, t: TableName, o: Operation)
    requires t in ts
    ensures Trigger(t, o) in TriggersOn(ts)
  {
    assert o in {Insert, Update, Operation.Delete};
  }

  /** At any time the tables and triggers of V050 are all there or all gone. */
  lemma WholeOrGone(l: Ledger)
    requires Installed(l)
    ensures Owners in l.tables ==> Attributed(l)
    ensures Owners !in l.tables ==> Unattributed(l) && l.rows.owners == map[] && l.rows.runs == map[]
  {
    assert Owners in METERED_TABLES + ATTRIBUTION_TABLES;
    assert Runs in METERED_TABLES + ATTRIBUTION_TABLES;
    if Owners in l.tables {
      forall t, o | t == Owners || t == Runs ensures Trigger(t, o) in l.triggers {
        EveryOperation(l.tables - {PriceSnapshots, AccountingState}, t, o);
      }
    }
  }

  /** Applying V050 brings all of it, and changes nothing else. */
  lemma AttributionComes(l: Ledger)
    requires Valid(l)
    ensures var d := Step(l, ApplyV050);
      && Attributed(d) && d.rows == l.rows && d.snapshots == l.snapshots && d.revision == l.revision
      && d.tables == l.tables + {Owners, Runs} && l.triggers <= d.triggers
  {
    hide Constraints, Attributed, Unattributed;
    MigrationTracks(l);
    InstalledHasCounter(l);
    WholeOrGone(Applied050(l));
  }

  /** Rolling V050 back takes all of it, or nothing if an owner or a run is attributed. */
  lemma AttributionGoes(l: Ledger)
    requires Valid(l) && Owners in l.tables
    ensures var d := Step(l, RevertV050);
      if l.rows.owners == map[] && l.rows.runs == map[]
      then Unattributed(d) && d.rows == l.rows && d.snapshots == l.snapshots && d.revision == l.revision
           && d.tables == l.tables - {Owners, Runs} && d.triggers <= l.triggers
      else d == l
  {
    hide Constraints, Attributed, Unattributed;
    WholeOrGone(l);
    assert Owners in l.tables && Runs in l.tables by { AttributedTables(l); }
    MigrationTracks(l);
    if Releases050(l) {
      WholeOrGone(RolledBack050(l));
    }
  }

  lemma AttributedTables(l: Ledger)
    requires Attributed(l)
    ensures Owners in l.tables && Runs in l.tables
  {
  }

  /** Applied and rolled back at once, V050 leaves no trace. */
  lemma AttributionRoundTrip(l: Ledger)
    requires Valid(l) && Owners !in l.tables
    ensures Step(Step(l, ApplyV050), RevertV050) == l
  {
    hide Constraints;
    MigrationTracks(l);
    InstalledHasCounter(l);
    TriggersPart();
    assert l.tables == METERED_TABLES by {
      assert Owners in METERED_TABLES + ATTRIBUTION_TABLES;
    }
    var d := Applied050(l);
    assert d.tables == METERED_TABLES + ATTRIBUTION_TABLES;
    assert RolledBack050(d).tables == METERED_TABLES;
  }

  /******* Every reachable ledger *******/

  /** Costs add up, and no row is an orphan, at any level. */
  ghost predicate BooksBalance(r: Rows) {
    && (forall e :: e in r.events ==> r.events[e].cost == r.events[e].billed + r.events[e].estimated >= 0)
    && (forall k :: k in r.items ==> r.items[k].cost == r.items[k].billed + r.items[k].estimated >= 0)
    && (forall o :: o in r.baselines ==> r.baselines[o].cost == r.baselines[o].billed + r.baselines[o].estimated >= 0)
    && (forall k :: k in r.items ==> k.event in r.events)
    && (forall k :: k in r.receipts || k in r.metering ==> k in r.items)
    && (forall s :: s in r.settlements ==> s.item in r.items)
    && (forall s :: s in r.observations ==> s in r.settlements)
    && (forall k :: k in r.receipts && r.receipts[k].confirmed ==>
          r.receipts[k].amount.Some? && r.receipts[k].usd.Some?)
    && (forall k :: k in r.receipts && !r.receipts[k].confirmed ==> r.receipts[k].usd.None?)
  }

  lemma ConstraintsBalance(r: Rows, snapshots: map<string, string>)
    requires Constraints(r, snapshots)
    ensures BooksBalance(r)
  {
    assert forall e :: e in r.events ==> EventOk(r.events[e]);
    assert forall k :: k in r.items ==> ItemOk(k, r.items[k]);
    assert forall k :: k in r.receipts ==> ReceiptOk(r.receipts[k]);
  }

  lemma ReachableBooksBalance(l: Ledger, ops: seq<Op>)
    requires Stage(l)
    ensures BooksBalance(After(l, ops).rows)
  {
    hide BooksBalance, RowConstraints, ForeignKeys, Step;
    ConstraintsBalance(After(l, ops).rows, After(l, ops).snapshots);
  }
}
