/**
 The crash and resume protocol of the acceptance runner. Before a case is sent, its session key
 and request id are saved atomically; after any number of crashes and resumes the case is sent
 under that one pair, so the receipt key of V020 admits at most one turn for it.
 */
module Resume {
  import opened Common

  type Group = string
  type CaseId = string
  type Key = string
  type Uuid = string

  /** One row of the fixed case list. */
  datatype Case = Case(group: Group, id: CaseId, prompt: string)

  /** What a case is sent under: chosen once, then saved. */
  datatype Ticket = Ticket(session: Key, request: Uuid, continuing: bool)

  datatype Pending = Pending(id: CaseId, ticket: Ticket, accepted: bool)

  datatype Entry = Entry(id: CaseId, session: Key)

  datatype Report = Report(entries: seq<Entry>, pending: Option<Pending>, sessions: map<Group, Key>)

  /** report.json: not there, cut short by a crash, or whole. */
  datatype Disk = Missing | Torn | Saved(report: Report)

  datatype Phase =
    | Choosing
    | Named(i: nat, key: Key)
    | Reserved(i: nat, key: Key)
    | Posted(i: nat, key: Key)
    | Rejected
    | Accepted(i: nat, key: Key)
    | Writing

  /** A running process: its report, the cases settled when it began, and where its loop is. */
  datatype Memory = Memory(report: Report, completed: set<CaseId>, next: nat, phase: Phase)

  /** A request as the server sees it. */
  datatype Send = Send(id: CaseId, session: Key, prompt: string, continuing: bool, request: Uuid)

  /**
   Disk, process and server together. `turns` lists admitted requests; `tickets` and `sends`
   are the history: which ticket each case was given, and everything that was sent.
   */
  datatype World = World(
    disk: Disk,
    memory: Option<Memory>,
    receipts: set<(Key, Uuid)>,
    turns: seq<Send>,
    tickets: map<CaseId, Ticket>,
    sends: seq<Send>,
    used: set<Uuid>)

  const BEGINNING: World := World(Missing, None, {}, [], map[], [], {})

  /******* Restoring the session keys *******/

  function GroupOf(cases: seq<Case>, id: CaseId): Option<Group> {
    if cases == [] then None
    else if cases[0].id == id then Some(cases[0].group)
    else GroupOf(cases[1..], id)
  }

  function WithEntries(cases: seq<Case>, sessions: map<Group, Key>, entries: seq<Entry>): map<Group, Key> {
    if entries == [] then sessions
    else
      var before, e := WithEntries(cases, sessions, entries[..|entries| - 1]), entries[|entries| - 1];
      var g := GroupOf(cases, e.id);
      if g.Some? then before[g.value := e.session] else before
  }

  /** The pending case is looked at last, so its key wins over every earlier one of its group. */
  function Restored(cases: seq<Case>, r: Report): (sessions: map<Group, Key>)
    ensures r.pending.Some? && GroupOf(cases, r.pending.value.id).Some? ==>
      && GroupOf(cases, r.pending.value.id).value in sessions
      && sessions[GroupOf(cases, r.pending.value.id).value] == r.pending.value.ticket.session
  {
    var sessions := WithEntries(cases, r.sessions, r.entries);
    var g := if r.pending.Some? then GroupOf(cases, r.pending.value.id) else None;
    if g.Some? then sessions[g.value := r.pending.value.ticket.session] else sessions
  }

  method RestoredSessions(cases: seq<Case>, r: Report) returns (sessions: map<Group, Key>)
    ensures sessions == Restored(cases, r)
  {
    sessions := r.sessions;
    for i := 0 to |r.entries|
      invariant sessions == WithEntries(cases, r.sessions, r.entries[..i])
    {
      var e := r.entries[i];
      assert r.entries[..i + 1][..i] == r.entries[..i];
      var g := GroupOf(cases, e.id);
      if g.Some? {
        sessions := sessions[g.value := e.session];
      }
    }
    assert r.entries[..|r.entries|] == r.entries;
    if r.pending.Some? {
      var g := GroupOf(cases, r.pending.value.id);
      if g.Some? {
        sessions := sessions[g.value := r.pending.value.ticket.session];
      }
    }
  }

  /******* Steps *******/

  datatype Step =
    | Start(resume: bool)
    | Name(i: nat, newKey: Key)
    | Reserve(request: Uuid, continuing: bool)
    | Post(rejected: bool)
    | Reply
    | Settle
    | WriteReport
    | TearReport
    | Fail
    | Crash

  function Ids(entries: seq<Entry>): set<CaseId> {
    set e | e in entries :: e.id
  }

  function SendOf(c: Case, key: Key, t: Ticket): Send {
    Send(c.id, key, c.prompt, t.continuing, t.request)
  }

  /** `load_report`, `restored_sessions` and the first save. */
  function Started(cases: seq<Case>, w: World, resume: bool): World {
    if w.memory.Some? then w
    else if resume && w.disk.Saved? then
      var r := w.disk.report.(sessions := Restored(cases, w.disk.report));
      w.(disk := Saved(r), memory := Some(Memory(r, Ids(r.entries), 0, Choosing)))
    else if !resume && w.disk.Missing? then
      var r := Report([], None, map[]);
      w.(disk := Saved(r), memory := Some(Memory(r, {}, 0, Choosing)))
    else w
  }

  function InMemory(w: World, m: Memory): World {
    w.(memory := Some(m))
  }

  function Saving(w: World, m: Memory): World {
    w.(memory := Some(m), disk := Saved(m.report))
  }

  /** A step that is not enabled leaves the world as it is. */
  function Next(cases: seq<Case>, w: World, e: Step): World {
    if e.Start? then Started(cases, w, e.resume)
    else if w.memory.None? then w
    else
      var m := w.memory.value;
      match e
      case Name(i, newKey) => NameCase(cases, w, m, i, newKey)
      case Reserve(request, continuing) => ReserveTicket(cases, w, m, request, continuing)
      case Post(rejected) => PostCase(cases, w, m, rejected)
      case Reply =>
        if m.phase.Posted? && m.report.pending.Some?
        then Saving(w, m.(phase := Accepted(m.phase.i, m.phase.key),
                          report := m.report.(pending := Some(m.report.pending.value.(accepted := true)))))
        else w
      case Settle => SettleCase(w, m)
      case WriteReport =>
        if m.phase.Writing? then Saving(w, m.(phase := Choosing)) else w
      case TearReport =>
        if m.phase.Writing? then w.(disk := Torn, memory := None) else w
      case Fail => w.(disk := Saved(m.report), memory := None)
      case Crash => w.(memory := None)
  }

  /**
   The next selected case that is not settled gets the session key of its group. While another
   case is pending, the runner stops here.
   */
  function NameCase(cases: seq<Case>, w: World, m: Memory, i: nat, newKey: Key): World {
    if m.phase.Choosing? && m.next <= i < |cases| && cases[i].id !in m.completed then
      var g := cases[i].group;
      var sessions := if g in m.report.sessions then m.report.sessions else m.report.sessions[g := newKey];
      var phase := if m.report.pending.Some? && m.report.pending.value.id != cases[i].id
                   then Rejected else Named(i, sessions[g]);
      InMemory(w, m.(phase := phase, next := i + 1, report := m.report.(sessions := sessions)))
    else w
  }

  /** A pending case is taken up again; a new one is given a ticket, and saved, before it is sent. */
  function ReserveTicket(cases: seq<Case>, w: World, m: Memory, request: Uuid, continuing: bool): World {
    if !m.phase.Named? || m.phase.i >= |cases| then w
    else if m.report.pending.Some? then
      InMemory(w, m.(phase := if m.report.pending.value.accepted
                              then Accepted(m.phase.i, m.phase.key) else Reserved(m.phase.i, m.phase.key)))
    else if request in w.used then w
    else
      var id := cases[m.phase.i].id;
      var t := Ticket(m.phase.key, request, continuing);
      Saving(w, m.(phase := Reserved(m.phase.i, m.phase.key),
                   report := m.report.(pending := Some(Pending(id, t, false)))))
      .(tickets := w.tickets[id := t], used := w.used + {request})
  }

  /** The server admits a new request once and answers a known one from its receipt. */
  function PostCase(cases: seq<Case>, w: World, m: Memory, rejected: bool): World {
    if !m.phase.Reserved? || m.phase.i >= |cases| || m.report.pending.None? then w
    else
      var s := SendOf(cases[m.phase.i], m.phase.key, m.report.pending.value.ticket);
      var sent := w.(sends := w.sends + [s]);
      if rejected then InMemory(sent, m.(phase := Rejected))
      else if (s.session, s.request) in w.receipts
      then InMemory(sent, m.(phase := Posted(m.phase.i, m.phase.key)))
      else InMemory(sent, m.(phase := Posted(m.phase.i, m.phase.key)))
           .(receipts := w.receipts + {(s.session, s.request)}, turns := w.turns + [s])
  }

  /** The case is recorded and no longer pending; the report is written in place next. */
  function SettleCase(w: World, m: Memory): World {
    if !m.phase.Accepted? || m.report.pending.None? then w
    else
      var entry := Entry(m.report.pending.value.id, m.phase.key);
      InMemory(w, m.(phase := Writing, report := m.report.(entries := m.report.entries + [entry], pending := None)))
  }

  function Run(cases: seq<Case>, es: seq<Step>): World {
    if es == [] then BEGINNING else Next(cases, Run(cases, es[..|es| - 1]), es[|es| - 1])
  }

  /******* What every reachable world keeps *******/

  ghost predicate Distinct(cases: seq<Case>) {
    forall i, j :: 0 <= i < j < |cases| ==> cases[i].id != cases[j].id
  }

  function Pair(t: Ticket): (Key, Uuid) {
    (t.session, t.request)
  }

  predicate Known(r: Report, c: CaseId) {
    (r.pending.Some? && r.pending.value.id == c) || c in Ids(r.entries)
  }

  /** A request made for the case it names, under the case's one ticket. */
  ghost predicate Proper(cases: seq<Case>, tickets: map<CaseId, Ticket>, s: Send) {
    s.id in tickets
    && exists i :: 0 <= i < |cases| && cases[i].id == s.id
                && s == SendOf(cases[i], tickets[s.id].session, tickets[s.id])
  }

  ghost predicate Admitted(turns: seq<Send>, k: (Key, Uuid)) {
    exists i :: 0 <= i < |turns| && k == (turns[i].session, turns[i].request)
  }

  ghost predicate History(cases: seq<Case>, w: World) {
    && (forall i :: 0 <= i < |w.sends| ==> Proper(cases, w.tickets, w.sends[i]))
    && (forall i :: 0 <= i < |w.turns| ==> Proper(cases, w.tickets, w.turns[i]))
    && (forall i, j :: 0 <= i < j < |w.turns| ==>
          (w.turns[i].session, w.turns[i].request) != (w.turns[j].session, w.turns[j].request))
    && (forall k :: k in w.receipts <==> Admitted(w.turns, k))
    && (forall c :: c in w.tickets ==> w.tickets[c].request in w.used && GroupOf(cases, c).Some?)
    && (forall c, d :: c in w.tickets && d in w.tickets && c != d ==> w.tickets[c].request != w.tickets[d].request)
  }

  /** A report that records no case twice, and knows every ticket ever given. */
  ghost predicate Sound(tickets: map<CaseId, Ticket>, receipts: set<(Key, Uuid)>, r: Report) {
    && (forall i, j :: 0 <= i < j < |r.entries| ==> r.entries[i].id != r.entries[j].id)
    && (forall i :: 0 <= i < |r.entries| ==> Earned(tickets, receipts, r.entries[i]))
    && (r.pending.Some? ==>
          var p := r.pending.value;
          && p.id !in Ids(r.entries) && p.id in tickets && tickets[p.id] == p.ticket
          && (p.accepted ==> Pair(p.ticket) in receipts))
    && (forall c :: c in tickets ==> Known(r, c))
  }

  predicate Earned(tickets: map<CaseId, Ticket>, receipts: set<(Key, Uuid)>, e: Entry) {
    e.id in tickets && Pair(tickets[e.id]) in receipts && e.session == tickets[e.id].session
  }

  /** The pending case's group answers with the pending case's session key. */
  predicate Aligned(cases: seq<Case>, r: Report) {
    r.pending.Some? ==>
      var g := GroupOf(cases, r.pending.value.id);
      g.Some? && g.value in r.sessions && r.sessions[g.value] == r.pending.value.ticket.session
  }

  predicate Holding(cases: seq<Case>, r: Report, i: nat, key: Key) {
    i < |cases| && r.pending.Some? && r.pending.value.id == cases[i].id && r.pending.value.ticket.session == key
  }

  ghost predicate PhaseOk(cases: seq<Case>, receipts: set<(Key, Uuid)>, m: Memory) {
    var r := m.report;
    match m.phase
    case Named(i, key) =>
      && i < |cases| && m.next == i + 1 && cases[i].id !in Ids(r.entries)
      && cases[i].group in r.sessions && r.sessions[cases[i].group] == key
      && (r.pending.Some? ==> r.pending.value.id == cases[i].id)
    case Reserved(i, key) => Holding(cases, r, i, key)
    case Posted(i, key) => Holding(cases, r, i, key) && Pair(r.pending.value.ticket) in receipts
    case Accepted(i, key) => Holding(cases, r, i, key) && r.pending.value.accepted
    case Writing => r.pending.None?
    case _ => true
  }

  /** Every recorded case was settled before this process began, or by it. */
  ghost predicate Passed(cases: seq<Case>, m: Memory) {
    && m.next <= |cases|
    && (forall c :: c in Ids(m.report.entries) ==> c in m.completed || Before(cases, m.next, c))
    && (m.report.pending.Some? && (m.phase.Reserved? || m.phase.Posted? || m.phase.Accepted?) ==>
          Before(cases, m.next, m.report.pending.value.id))
  }

  ghost predicate Before(cases: seq<Case>, n: nat, c: CaseId) {
    exists j :: 0 <= j < n && j < |cases| && cases[j].id == c
  }

  ghost predicate MemoryOk(cases: seq<Case>, w: World, m: Memory) {
    && Sound(w.tickets, w.receipts, m.report) && Aligned(cases, m.report)
    && PhaseOk(cases, w.receipts, m) && Passed(cases, m)
  }

  ghost predicate Inv(cases: seq<Case>, w: World) {
    && History(cases, w)
    && (w.disk.Missing? ==> w.tickets == map[])
    && (w.disk.Saved? ==> Sound(w.tickets, w.receipts, w.disk.report))
    && (w.memory.Some? ==> w.disk.Saved? && MemoryOk(cases, w, w.memory.value))
    && (w.memory.Some? && w.disk.Saved? ==> w.disk.report.entries <= w.memory.value.report.entries)
  }

  /******* Preservation, step by step *******/

  lemma {:induction false} GroupOfCase(cases: seq<Case>, i: nat)
    requires Distinct(cases) && i < |cases|
    ensures GroupOf(cases, cases[i].id) == Some(cases[i].group)
  {
    if i > 0 {
      assert cases[0].id != cases[i].id;
      GroupOfCase(cases[1..], i - 1);
    }
  }

  lemma StartKeepsInv(cases: seq<Case>, w: World, resume: bool)
    requires Inv(cases, w)
    ensures Inv(cases, Started(cases, w, resume))
  {
  }

  lemma BeforeGrows(cases: seq<Case>, m: Memory, n: nat, entries: seq<Entry>)
    requires Passed(cases, m) && m.next <= n <= |cases| && m.report.entries == entries
    ensures forall c :: c in Ids(entries) ==> c in m.completed || Before(cases, n, c)
  {
  }

  /** Another case is pending: the runner keeps the session key it made up, and stops. */
  lemma StopKeepsInv(cases: seq<Case>, w: World, m: Memory, i: nat, newKey: Key)
    requires Distinct(cases) && Inv(cases, w) && w.memory == Some(m)
    requires m.phase.Choosing? && m.next <= i < |cases| && cases[i].id !in m.completed
    requires m.report.pending.Some? && m.report.pending.value.id != cases[i].id
    ensures Inv(cases, NameCase(cases, w, m, i, newKey))
  {
    hide History, Earned, Before;
    BeforeGrows(cases, m, i + 1, m.report.entries);
    HistoryIsAbout(cases, w, NameCase(cases, w, m, i, newKey));
  }

  /** The case is not settled yet, and its group's key is the one it was pending under, if it was. */
  lemma TakeUpKeepsInv(cases: seq<Case>, w: World, m: Memory, i: nat, newKey: Key)
    requires Distinct(cases) && Inv(cases, w) && w.memory == Some(m)
    requires m.phase.Choosing? && m.next <= i < |cases| && cases[i].id !in m.completed
    requires m.report.pending.Some? ==> m.report.pending.value.id == cases[i].id
    ensures Inv(cases, NameCase(cases, w, m, i, newKey))
  {
    hide History, Earned;
    GroupOfCase(cases, i);
    BeforeGrows(cases, m, i + 1, m.report.entries);
    HistoryIsAbout(cases, w, NameCase(cases, w, m, i, newKey));
    assert !Before(cases, m.next, cases[i].id);
  }

  lemma HistoryIsAbout(cases: seq<Case>, w: World, v: World)
    requires History(cases, w)
    requires v.sends == w.sends && v.turns == w.turns && v.receipts == w.receipts
    requires v.tickets == w.tickets && v.used == w.used
    ensures History(cases, v)
  {
  }

  lemma NameKeepsInv(cases: seq<Case>, w: World, m: Memory, i: nat, newKey: Key)
    requires Distinct(cases) && Inv(cases, w) && w.memory == Some(m)
    ensures Inv(cases, NameCase(cases, w, m, i, newKey))
  {
    hide Inv, NameCase;
    if m.phase.Choosing? && m.next <= i < |cases| && cases[i].id !in m.completed {
      if m.report.pending.Some? && m.report.pending.value.id != cases[i].id {
        StopKeepsInv(cases, w, m, i, newKey);
      } else {
        TakeUpKeepsInv(cases, w, m, i, newKey);
      }
    } else {
      NameDisabled(cases, w, m, i, newKey);
    }
  }

  lemma NameDisabled(cases: seq<Case>, w: World, m: Memory, i: nat, newKey: Key)
    requires !(m.phase.Choosing? && m.next <= i < |cases| && cases[i].id !in m.completed)
    ensures NameCase(cases, w, m, i, newKey) == w
  {
  }

  lemma TicketKeepsHistory(cases: seq<Case>, w: World, id: CaseId, t: Ticket)
    requires History(cases, w) && id !in w.tickets && t.request !in w.used && GroupOf(cases, id).Some?
    ensures History(cases, w.(tickets := w.tickets[id := t], used := w.used + {t.request}))
  {
    forall s: Send | Proper(cases, w.tickets, s) ensures Proper(cases, w.tickets[id := t], s) {
    }
  }

  lemma TicketIsSound(tickets: map<CaseId, Ticket>, receipts: set<(Key, Uuid)>, r: Report, id: CaseId, t: Ticket)
    requires Sound(tickets, receipts, r) && r.pending.None? && id !in Ids(r.entries)
    ensures id !in tickets
    ensures Sound(tickets[id := t], receipts, r.(pending := Some(Pending(id, t, false))))
  {
    forall i | 0 <= i < |r.entries| ensures Earned(tickets[id := t], receipts, r.entries[i]) {
      assert Earned(tickets, receipts, r.entries[i]);
      assert r.entries[i] in r.entries;
    }
  }

  lemma ReserveKeepsInv(cases: seq<Case>, w: World, m: Memory, request: Uuid, continuing: bool)
    requires Distinct(cases) && Inv(cases, w) && w.memory == Some(m)
    ensures Inv(cases, ReserveTicket(cases, w, m, request, continuing))
  {
    hide Earned, Proper;
    if m.phase.Named? {
      GroupOfCase(cases, m.phase.i);
      if m.report.pending.None? && request !in w.used {
        var id, t := cases[m.phase.i].id, Ticket(m.phase.key, request, continuing);
        TicketIsSound(w.tickets, w.receipts, m.report, id, t);
        TicketKeepsHistory(cases, w, id, t);
      }
    }
  }

  lemma SendKeepsHistory(cases: seq<Case>, w: World, s: Send)
    requires History(cases, w) && Proper(cases, w.tickets, s)
    ensures History(cases, w.(sends := w.sends + [s]))
  {
  }

  lemma AdmitKeepsHistory(cases: seq<Case>, w: World, s: Send)
    requires History(cases, w) && Proper(cases, w.tickets, s) && (s.session, s.request) !in w.receipts
    ensures History(cases, w.(receipts := w.receipts + {(s.session, s.request)}, turns := w.turns + [s]))
  {
    hide Proper;
    var turns := w.turns + [s];
    forall i | 0 <= i < |w.turns| ensures (turns[i].session, turns[i].request) in w.receipts {
      assert turns[i] == w.turns[i];
    }
    forall k | k in w.receipts + {(s.session, s.request)}
      ensures exists i :: 0 <= i < |turns| && k == (turns[i].session, turns[i].request)
    {
      if k == (s.session, s.request) {
        assert turns[|w.turns|] == s;
      } else {
        var i :| 0 <= i < |w.turns| && k == (w.turns[i].session, w.turns[i].request);
        assert turns[i] == w.turns[i];
      }
    }
  }

  lemma MoreReceiptsStaySound(tickets: map<CaseId, Ticket>, a: set<(Key, Uuid)>, b: set<(Key, Uuid)>, r: Report)
    requires Sound(tickets, a, r) && a <= b
    ensures Sound(tickets, b, r)
  {
  }

  /** Whatever is sent goes out under the case's ticket: the phase and the report agree on it. */
  lemma PostIsProper(cases: seq<Case>, w: World, m: Memory)
    requires MemoryOk(cases, w, m) && m.phase.Reserved?
    ensures m.phase.i < |cases| && m.report.pending.Some?
    ensures var s := SendOf(cases[m.phase.i], m.phase.key, m.report.pending.value.ticket);
      Proper(cases, w.tickets, s) && (s.session, s.request) == Pair(m.report.pending.value.ticket)
  {
  }

  lemma PostKeepsHistory(cases: seq<Case>, w: World, m: Memory, rejected: bool)
    requires History(cases, w) && MemoryOk(cases, w, m)
    ensures History(cases, PostCase(cases, w, m, rejected))
  {
    if m.phase.Reserved? {
      PostIsProper(cases, w, m);
      var s := SendOf(cases[m.phase.i], m.phase.key, m.report.pending.value.ticket);
      SendKeepsHistory(cases, w, s);
      if (s.session, s.request) !in w.receipts {
        AdmitKeepsHistory(cases, w.(sends := w.sends + [s]), s);
      }
    }
  }

  lemma PostKeepsMemory(cases: seq<Case>, w: World, m: Memory, rejected: bool)
    requires MemoryOk(cases, w, m) && m.phase.Reserved?
    ensures var v := PostCase(cases, w, m, rejected); v.memory.Some? && MemoryOk(cases, v, v.memory.value)
  {
    PostIsProper(cases, w, m);
    var v := PostCase(cases, w, m, rejected);
    MoreReceiptsStaySound(w.tickets, w.receipts, v.receipts, m.report);
  }

  lemma ReceiptKeepsInv(cases: seq<Case>, w: World, v: World)
    requires Inv(cases, w) && w.memory.Some? && History(cases, v)
    requires v.disk == w.disk && v.tickets == w.tickets && w.receipts <= v.receipts
    requires v.memory.Some? && MemoryOk(cases, v, v.memory.value)
    requires v.memory.value.report.entries == w.memory.value.report.entries
    ensures Inv(cases, v)
  {
    MoreReceiptsStaySound(w.tickets, w.receipts, v.receipts, w.disk.report);
  }

  lemma PostFrame(cases: seq<Case>, w: World, m: Memory, rejected: bool)
    requires m.phase.Reserved? && m.phase.i < |cases| && m.report.pending.Some?
    ensures var v := PostCase(cases, w, m, rejected);
      && v.disk == w.disk && v.tickets == w.tickets && w.receipts <= v.receipts
      && v.memory.Some? && v.memory.value.report == m.report
  {
  }

  lemma PostKeepsInv(cases: seq<Case>, w: World, m: Memory, rejected: bool)
    requires Inv(cases, w) && w.memory == Some(m)
    ensures Inv(cases, PostCase(cases, w, m, rejected))
  {
    hide History, Sound, Passed;
    if m.phase.Reserved? {
      PostKeepsHistory(cases, w, m, rejected);
      PostKeepsMemory(cases, w, m, rejected);
      PostFrame(cases, w, m, rejected);
      ReceiptKeepsInv(cases, w, PostCase(cases, w, m, rejected));
    }
  }

  lemma RecordedIsSound(tickets: map<CaseId, Ticket>, receipts: set<(Key, Uuid)>, r: Report)
    requires Sound(tickets, receipts, r) && r.pending.Some? && r.pending.value.accepted
    ensures var e := Entry(r.pending.value.id, r.pending.value.ticket.session);
      && Sound(tickets, receipts, r.(entries := r.entries + [e], pending := None))
      && Ids(r.entries + [e]) == Ids(r.entries) + {e.id}
  {
    var e := Entry(r.pending.value.id, r.pending.value.ticket.session);
    assert Ids(r.entries + [e]) == Ids(r.entries) + {e.id};
    forall i | 0 <= i < |r.entries| ensures r.entries[i].id != e.id {
      assert r.entries[i] in r.entries;
    }
  }

  lemma SettleKeepsInv(cases: seq<Case>, w: World, m: Memory)
    requires Inv(cases, w) && w.memory == Some(m)
    ensures Inv(cases, SettleCase(w, m))
  {
    if m.phase.Accepted? {
      RecordedIsSound(w.tickets, w.receipts, m.report);
    }
  }

  lemma AcceptedIsSound(tickets: map<CaseId, Ticket>, receipts: set<(Key, Uuid)>, r: Report)
    requires Sound(tickets, receipts, r) && r.pending.Some? && Pair(r.pending.value.ticket) in receipts
    ensures Sound(tickets, receipts, r.(pending := Some(r.pending.value.(accepted := true))))
  {
  }

  lemma ReplyKeepsInv(cases: seq<Case>, w: World)
    requires Inv(cases, w)
    ensures Inv(cases, Next(cases, w, Reply))
  {
    if w.memory.Some? && w.memory.value.phase.Posted? {
      AcceptedIsSound(w.tickets, w.receipts, w.memory.value.report);
    }
  }

  lemma EndKeepsInv(cases: seq<Case>, w: World, e: Step)
    requires Inv(cases, w) && (e.WriteReport? || e.TearReport? || e.Fail? || e.Crash?)
    ensures Inv(cases, Next(cases, w, e))
  {
  }

  lemma NextKeepsInv(cases: seq<Case>, w: World, e: Step)
    requires Distinct(cases) && Inv(cases, w)
    ensures Inv(cases, Next(cases, w, e))
  {
    if e.Start? {
      StartKeepsInv(cases, w, e.resume);
    } else if w.memory.Some? {
      var m := w.memory.value;
      match e
      case Name(i, newKey) => NameKeepsInv(cases, w, m, i, newKey);
      case Reserve(request, continuing) => ReserveKeepsInv(cases, w, m, request, continuing);
      case Post(rejected) => PostKeepsInv(cases, w, m, rejected);
      case Reply => ReplyKeepsInv(cases, w);
      case Settle => SettleKeepsInv(cases, w, m);
      case _ => EndKeepsInv(cases, w, e);
    }
  }

  lemma {:induction false} RunKeepsInv(cases: seq<Case>, es: seq<Step>)
    requires Distinct(cases)
    ensures Inv(cases, Run(cases, es))
    decreases |es|
  {
    if es != [] {
      RunKeepsInv(cases, es[..|es| - 1]);
      NextKeepsInv(cases, Run(cases, es[..|es| - 1]), es[|es| - 1]);
    }
  }

  /******* Whole runs *******/

  /**
   Across any crashes and resumes, everything ever sent for one case is the same request: same
   session key, same client request id, same message, same intent.
   */
  lemma OneRequestPerCase(cases: seq<Case>, es: seq<Step>, i: nat, j: nat)
    requires Distinct(cases)
    requires i < |Run(cases, es).sends| && j < |Run(cases, es).sends|
    ensures var sends := Run(cases, es).sends;
      && (sends[i].id == sends[j].id ==> sends[i] == sends[j])
      && (sends[i].id != sends[j].id ==> sends[i].request != sends[j].request)
  {
    RunKeepsInv(cases, es);
    var w := Run(cases, es);
    assert Proper(cases, w.tickets, w.sends[i]) && Proper(cases, w.tickets, w.sends[j]);
  }

  /** So the unique receipt key admits at most one turn for each case. */
  lemma OneTurnPerCase(cases: seq<Case>, es: seq<Step>, i: nat, j: nat)
    requires Distinct(cases)
    requires i < |Run(cases, es).turns| && j < |Run(cases, es).turns|
    ensures Run(cases, es).turns[i].id == Run(cases, es).turns[j].id ==> i == j
  {
    RunKeepsInv(cases, es);
    var w := Run(cases, es);
    assert Proper(cases, w.tickets, w.turns[i]) && Proper(cases, w.tickets, w.turns[j]);
  }

  /** A saved report records each case at most once, and each recorded case had its turn. */
  lemma RecordedOnce(cases: seq<Case>, es: seq<Step>, i: nat)
    requires Distinct(cases) && Run(cases, es).disk.Saved? && i < |Run(cases, es).disk.report.entries|
    ensures var w := Run(cases, es);
      && (forall j :: 0 <= j < |w.disk.report.entries| && j != i ==>
            w.disk.report.entries[j].id != w.disk.report.entries[i].id)
      && exists k :: 0 <= k < |w.turns| && w.turns[k].id == w.disk.report.entries[i].id
                  && w.turns[k].session == w.disk.report.entries[i].session
  {
    RunKeepsInv(cases, es);
    var w := Run(cases, es);
    var e := w.disk.report.entries[i];
    assert Earned(w.tickets, w.receipts, e);
    var k :| 0 <= k < |w.turns| && Pair(w.tickets[e.id]) == (w.turns[k].session, w.turns[k].request);
    assert Proper(cases, w.tickets, w.turns[k]);
  }

  /** What the process has recorded extends what the file records. */
  predicate Ahead(w: World) {
    w.memory.Some? && w.disk.Saved? ==> w.disk.report.entries <= w.memory.value.report.entries
  }

  lemma RecordsStay(cases: seq<Case>, w: World, e: Step)
    requires w.disk.Saved? && Ahead(w)
    ensures Next(cases, w, e).disk.Saved? ==> w.disk.report.entries <= Next(cases, w, e).disk.report.entries
  {
  }

  lemma NotResent(cases: seq<Case>, w: World, e: Step, c: CaseId)
    requires w.disk.Saved? && Ahead(w) && c in Ids(w.disk.report.entries)
    requires w.memory.Some? && w.memory.value.phase.Reserved? ==>
      var m := w.memory.value;
      Holding(cases, m.report, m.phase.i, m.phase.key) && m.report.pending.value.id !in Ids(m.report.entries)
    ensures var v := Next(cases, w, e);
      w.sends <= v.sends && forall i :: |w.sends| <= i < |v.sends| ==> v.sends[i].id != c
  {
    if w.memory.Some? {
      assert Ids(w.disk.report.entries) <= Ids(w.memory.value.report.entries);
    }
  }

  /** A file cut short ends the run: nothing starts again, resumed or not. */
  lemma TornFileStops(cases: seq<Case>, es: seq<Step>, e: Step)
    requires Distinct(cases) && Run(cases, es).disk.Torn?
    ensures Next(cases, Run(cases, es), e) == Run(cases, es)
  {
    RunKeepsInv(cases, es);
  }

  lemma NextIsFinal(cases: seq<Case>, w: World, e: Step, c: CaseId)
    requires Inv(cases, w) && w.disk.Saved? && c in Ids(w.disk.report.entries)
    ensures var v := Next(cases, w, e);
      && !v.disk.Missing? && (v.disk.Saved? ==> w.disk.report.entries <= v.disk.report.entries)
      && w.sends <= v.sends && forall i :: |w.sends| <= i < |v.sends| ==> v.sends[i].id != c
  {
    RecordsStay(cases, w, e);
    NotResent(cases, w, e, c);
  }

  /**
   Once a case is recorded in the file, no continuation of the run ever sends it again, and the
   file keeps its record for as long as it can be read.
   */
  lemma {:induction false} RecordsAreFinal(cases: seq<Case>, es: seq<Step>, fs: seq<Step>, c: CaseId)
    requires Distinct(cases) && Run(cases, es).disk.Saved? && c in Ids(Run(cases, es).disk.report.entries)
    ensures var w, v := Run(cases, es), Run(cases, es + fs);
      && !v.disk.Missing? && (v.disk.Saved? ==> w.disk.report.entries <= v.disk.report.entries)
      && w.sends <= v.sends && forall i :: |w.sends| <= i < |v.sends| ==> v.sends[i].id != c
    decreases |fs|
  {
    hide Next, Inv, History;
    if fs == [] {
      assert es + fs == es;
    } else {
      var before, last := fs[..|fs| - 1], fs[|fs| - 1];
      RecordsAreFinal(cases, es, before, c);
      assert (es + fs)[..|es + fs| - 1] == es + before;
      var u := Run(cases, es + before);
      RunKeepsInv(cases, es + before);
      if u.disk.Saved? {
        assert c in Ids(u.disk.report.entries);
        NextIsFinal(cases, u, last, c);
      } else {
        TornFileStops(cases, es + before, last);
      }
    }
  }

  /** A first process that dies after its request went out. */
  function Interrupted(c: Case, key: Key, request: Uuid): World {
    var t := Ticket(key, request, false);
    var s := SendOf(c, key, t);
    World(Saved(Reservation(c, key, request)), None,
          {(key, request)}, [s], map[c.id := t], [s], {request})
  }

  /** The report a first process saves before it sends. */
  function Reservation(c: Case, key: Key, request: Uuid): Report {
    Report([], Some(Pending(c.id, Ticket(key, request, false), false)), map[c.group := key])
  }

  lemma FirstReserves(c: Case, key: Key, other: Key, request: Uuid)
    ensures Run([c], Resending(key, other, request)[..3]) ==
      World(Saved(Reservation(c, key, request)), Some(Memory(Reservation(c, key, request), {}, 1, Reserved(0, key))),
            {}, [], map[c.id := Ticket(key, request, false)], [], {request})
  {
    var es := Resending(key, other, request);
    var r := Report([], None, map[]);
    RunStep([c], es, 0);
    assert Run([c], es[..1]) == BEGINNING.(disk := Saved(r), memory := Some(Memory(r, {}, 0, Choosing)));
    RunStep([c], es, 1);
    RunStep([c], es, 2);
  }

  lemma FirstProcess(c: Case, key: Key, other: Key, request: Uuid)
    ensures Run([c], Resending(key, other, request)[..5]) == Interrupted(c, key, request)
  {
    var es := Resending(key, other, request);
    FirstReserves(c, key, other, request);
    RunStep([c], es, 3);
    RunStep([c], es, 4);
  }

  lemma SecondProcess(c: Case, key: Key, other: Key, request: Uuid)
    ensures
      var w := Interrupted(c, key, request);
      var v := Next([c], Next([c], Next([c], w, Start(true)), Name(0, other)), Reserve(request, true));
      Next([c], v, Post(false)).sends == w.sends + w.sends && Next([c], v, Post(false)).turns == w.turns
  {
    var w := Interrupted(c, key, request);
    assert GroupOf([c], c.id) == Some(c.group);
    assert Restored([c], w.disk.report) == map[c.group := key];
  }

  /** The receipt key is needed: a crash between sending and saving does send the case twice. */
  lemma ResendHappens(c: Case, key: Key, other: Key, request: Uuid)
    ensures var w := Run([c], Resending(key, other, request));
      |w.sends| == 2 && w.sends[0] == w.sends[1] && w.turns == [w.sends[0]]
  {
    var es := Resending(key, other, request);
    FirstProcess(c, key, other, request);
    SecondProcess(c, key, other, request);
    RunStep([c], es, 5);
    RunStep([c], es, 6);
    RunStep([c], es, 7);
    RunStep([c], es, 8);
    assert es[..9] == es;
  }

  function Resending(key: Key, other: Key, request: Uuid): (es: seq<Step>)
    ensures |es| == 9
  {
    [Start(false), Name(0, key), Reserve(request, false), Post(false), Crash,
     Start(true), Name(0, other), Reserve(request, true), Post(false)]
  }

  lemma RunStep(cases: seq<Case>, es: seq<Step>, i: nat)
    requires i < |es|
    ensures Run(cases, es[..i + 1]) == Next(cases, Run(cases, es[..i]), es[i])
  {
    assert es[..i + 1][..i] == es[..i];
  }
}
