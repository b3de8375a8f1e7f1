/**
 The cases of one group build on one another, so they have to run in one session. However often
 the acceptance runner crashes and resumes, all cases of a group go out under one session key.
 */
module ResumeGroups {
  import opened Common
  import opened Resume

  /** `sessions` knows every group that has a ticket, under the session key of the ticket. */
  ghost predicate Grouped(cases: seq<Case>, tickets: map<CaseId, Ticket>, sessions: map<Group, Key>) {
    forall c :: c in tickets && GroupOf(cases, c).Some? ==>
      Answers(sessions, GroupOf(cases, c).value, tickets[c].session)
  }

  predicate Answers(sessions: map<Group, Key>, g: Group, key: Key) {
    g in sessions && sessions[g] == key
  }

  ghost predicate GroupsKept(cases: seq<Case>, w: World) {
    && (w.disk.Saved? ==> Grouped(cases, w.tickets, w.disk.report.sessions))
    && (w.memory.Some? ==> Grouped(cases, w.tickets, w.memory.value.report.sessions))
  }

  /******* Restoring keeps the groups *******/

  lemma SettingAgain(cases: seq<Case>, tickets: map<CaseId, Ticket>, sessions: map<Group, Key>, id: CaseId, key: Key)
    requires Grouped(cases, tickets, sessions) && id in tickets && tickets[id].session == key
    requires GroupOf(cases, id).Some?
    ensures Grouped(cases, tickets, sessions[GroupOf(cases, id).value := key])
  {
    assert Answers(sessions, GroupOf(cases, id).value, key);
  }

  lemma {:induction false} EntriesKeepGroups(cases: seq<Case>, tickets: map<CaseId, Ticket>,
                                             sessions: map<Group, Key>, entries: seq<Entry>)
    requires Grouped(cases, tickets, sessions)
    requires forall i :: 0 <= i < |entries| ==>
      entries[i].id in tickets && entries[i].session == tickets[entries[i].id].session
    ensures Grouped(cases, tickets, WithEntries(cases, sessions, entries))
    decreases |entries|
  {
    if entries != [] {
      var before, e := entries[..|entries| - 1], entries[|entries| - 1];
      EntriesKeepGroups(cases, tickets, sessions, before);
      if GroupOf(cases, e.id).Some? {
        SettingAgain(cases, tickets, WithEntries(cases, sessions, before), e.id, e.session);
      }
    }
  }

  lemma RestoringKeepsGroups(cases: seq<Case>, tickets: map<CaseId, Ticket>, receipts: set<(Key, Uuid)>, r: Report)
    requires Sound(tickets, receipts, r) && Grouped(cases, tickets, r.sessions)
    ensures Grouped(cases, tickets, Restored(cases, r))
  {
    forall i | 0 <= i < |r.entries|
      ensures r.entries[i].id in tickets && r.entries[i].session == tickets[r.entries[i].id].session
    {
      assert Earned(tickets, receipts, r.entries[i]);
    }
    EntriesKeepGroups(cases, tickets, r.sessions, r.entries);
    if r.pending.Some? && GroupOf(cases, r.pending.value.id).Some? {
      SettingAgain(cases, tickets, WithEntries(cases, r.sessions, r.entries), r.pending.value.id,
                   r.pending.value.ticket.session);
    }
  }

  /******* Steps *******/

  lemma StartKeepsGroups(cases: seq<Case>, w: World, resume: bool)
    requires Inv(cases, w) && GroupsKept(cases, w)
    ensures GroupsKept(cases, Started(cases, w, resume))
  {
    hide History, Sound, Grouped;
    if w.memory.None? && resume && w.disk.Saved? {
      RestoringKeepsGroups(cases, w.tickets, w.receipts, w.disk.report);
    } else if w.memory.None? && !resume && w.disk.Missing? {
      NoTicketsNoGroups(cases, map[]);
    }
  }

  lemma NoTicketsNoGroups(cases: seq<Case>, sessions: map<Group, Key>)
    ensures Grouped(cases, map[], sessions)
  {
  }

  /** `setdefault`: a group that is known keeps its key. */
  lemma NameKeepsGroups(cases: seq<Case>, w: World, m: Memory, i: nat, newKey: Key)
    requires GroupsKept(cases, w) && w.memory == Some(m)
    ensures GroupsKept(cases, NameCase(cases, w, m, i, newKey))
  {
  }

  lemma ReserveKeepsGroups(cases: seq<Case>, w: World, m: Memory, request: Uuid, continuing: bool)
    requires Distinct(cases) && PhaseOk(cases, w.receipts, m) && GroupsKept(cases, w) && w.memory == Some(m)
    ensures GroupsKept(cases, ReserveTicket(cases, w, m, request, continuing))
  {
    if m.phase.Named? {
      GroupOfCase(cases, m.phase.i);
    }
  }

  lemma OtherStepsKeepGroups(cases: seq<Case>, w: World, e: Step)
    requires GroupsKept(cases, w) && !e.Start? && !e.Name? && !e.Reserve?
    ensures GroupsKept(cases, Next(cases, w, e))
  {
    hide Grouped;
  }

  lemma NextKeepsGroups(cases: seq<Case>, w: World, e: Step)
    requires Distinct(cases) && Inv(cases, w) && GroupsKept(cases, w)
    ensures GroupsKept(cases, Next(cases, w, e))
  {
    hide GroupsKept, History, Sound, Started, NameCase, ReserveTicket;
    if e.Start? {
      StartKeepsGroups(cases, w, e.resume);
    } else if e.Name? && w.memory.Some? {
      NameKeepsGroups(cases, w, w.memory.value, e.i, e.newKey);
    } else if e.Reserve? && w.memory.Some? {
      ReserveKeepsGroups(cases, w, w.memory.value, e.request, e.continuing);
    } else if !e.Name? && !e.Reserve? {
      OtherStepsKeepGroups(cases, w, e);
    }
  }

  lemma {:induction false} RunKeepsGroups(cases: seq<Case>, es: seq<Step>)
    requires Distinct(cases)
    ensures GroupsKept(cases, Run(cases, es))
    decreases |es|
  {
    hide Next, Inv;
    if es != [] {
      RunKeepsGroups(cases, es[..|es| - 1]);
      RunKeepsInv(cases, es[..|es| - 1]);
      NextKeepsGroups(cases, Run(cases, es[..|es| - 1]), es[|es| - 1]);
    }
  }

  /******* Whole runs *******/

  /** Two tickets of one group, in any world that still has a report somewhere. */
  lemma TicketsOfOneGroup(cases: seq<Case>, tickets: map<CaseId, Ticket>, sessions: map<Group, Key>, a: nat, b: nat)
    requires Distinct(cases) && Grouped(cases, tickets, sessions)
    requires a < |cases| && b < |cases| && cases[a].group == cases[b].group
    requires cases[a].id in tickets && cases[b].id in tickets
    ensures tickets[cases[a].id].session == tickets[cases[b].id].session
  {
    GroupOfCase(cases, a);
    GroupOfCase(cases, b);
    assert Answers(sessions, cases[a].group, tickets[cases[a].id].session);
  }

  /** A torn file ends the run, so the property of the tickets has to be kept on its own. */
  ghost predicate TicketsGrouped(cases: seq<Case>, tickets: map<CaseId, Ticket>) {
    forall a: nat, b: nat :: OneGroup(cases, tickets, a, b) ==> SameSession(tickets, cases[a].id, cases[b].id)
  }

  /** Two cases of one group that both have a ticket. */
  predicate OneGroup(cases: seq<Case>, tickets: map<CaseId, Ticket>, a: nat, b: nat) {
    && a < |cases| && b < |cases| && cases[a].group == cases[b].group
    && cases[a].id in tickets && cases[b].id in tickets
  }

  predicate SameSession(tickets: map<CaseId, Ticket>, c: CaseId, d: CaseId)
    requires c in tickets && d in tickets
  {
    tickets[c].session == tickets[d].session
  }

  lemma GroupedTickets(cases: seq<Case>, tickets: map<CaseId, Ticket>, sessions: map<Group, Key>)
    requires Distinct(cases) && Grouped(cases, tickets, sessions)
    ensures TicketsGrouped(cases, tickets)
  {
    forall a: nat, b: nat | OneGroup(cases, tickets, a, b)
      ensures SameSession(tickets, cases[a].id, cases[b].id)
    {
      TicketsOfOneGroup(cases, tickets, sessions, a, b);
    }
  }

  lemma OnlyReserveGivesTickets(cases: seq<Case>, w: World, e: Step)
    ensures !Next(cases, w, e).disk.Torn? || Next(cases, w, e).tickets == w.tickets
  {
  }

  lemma {:induction false} RunGroupsTickets(cases: seq<Case>, es: seq<Step>)
    requires Distinct(cases)
    ensures TicketsGrouped(cases, Run(cases, es).tickets)
    decreases |es|
  {
    hide Next, Inv, Grouped, TicketsGrouped;
    var w := Run(cases, es);
    RunKeepsGroups(cases, es);
    RunKeepsInv(cases, es);
    if w.disk.Saved? {
      GroupedTickets(cases, w.tickets, w.disk.report.sessions);
    } else if w.disk.Missing? {
      MissingHasNoTickets(cases, w);
      NoTicketsNoGroups(cases, map[]);
      GroupedTickets(cases, w.tickets, map[]);
    } else if es != [] {
      RunGroupsTickets(cases, es[..|es| - 1]);
      OnlyReserveGivesTickets(cases, Run(cases, es[..|es| - 1]), es[|es| - 1]);
    }
  }

  lemma MissingHasNoTickets(cases: seq<Case>, w: World)
    requires Inv(cases, w) && w.disk.Missing?
    ensures w.tickets == map[]
  {
  }

  /** Everything ever sent for the cases of one group carries one session key. */
  lemma OneSessionPerGroup(cases: seq<Case>, es: seq<Step>, i: nat, j: nat, a: nat, b: nat)
    requires Distinct(cases) && i < |Run(cases, es).sends| && j < |Run(cases, es).sends|
    requires a < |cases| && cases[a].id == Run(cases, es).sends[i].id
    requires b < |cases| && cases[b].id == Run(cases, es).sends[j].id
    requires cases[a].group == cases[b].group
    ensures Run(cases, es).sends[i].session == Run(cases, es).sends[j].session
  {
    hide Next;
    var w := Run(cases, es);
    RunKeepsInv(cases, es);
    RunGroupsTickets(cases, es);
    assert Proper(cases, w.tickets, w.sends[i]) && Proper(cases, w.tickets, w.sends[j]);
    assert OneGroup(cases, w.tickets, a, b);
    assert SameSession(w.tickets, cases[a].id, cases[b].id);
  }

  /** The same for what the file records. */
  lemma RecordsOfOneGroup(cases: seq<Case>, es: seq<Step>, i: nat, j: nat, a: nat, b: nat)
    requires Distinct(cases) && Run(cases, es).disk.Saved?
    requires i < |Run(cases, es).disk.report.entries| && j < |Run(cases, es).disk.report.entries|
    requires a < |cases| && cases[a].id == Run(cases, es).disk.report.entries[i].id
    requires b < |cases| && cases[b].id == Run(cases, es).disk.report.entries[j].id
    requires cases[a].group == cases[b].group
    ensures Run(cases, es).disk.report.entries[i].session == Run(cases, es).disk.report.entries[j].session
  {
    hide Next;
    var w := Run(cases, es);
    RunKeepsInv(cases, es);
    RunGroupsTickets(cases, es);
    var entries := w.disk.report.entries;
    assert Earned(w.tickets, w.receipts, entries[i]) && Earned(w.tickets, w.receipts, entries[j]);
    assert OneGroup(cases, w.tickets, a, b);
    assert SameSession(w.tickets, cases[a].id, cases[b].id);
  }
}
