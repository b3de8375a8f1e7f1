/**
 What is on disk whenever the acceptance runner talks to the server: the pending case with its
 ticket before the request goes out, and its acceptance before the case is waited for. So an
 accepted case is never sent again, and an orderly end loses nothing.
 */
module ResumeDurable {
  import opened Common
  import opened Resume

  /** The file and the process agree on what is pending and recorded, but while a record is being written. */
  ghost predicate Agrees(d: Report, m: Memory) {
    && (if m.phase.Writing?
        then m.report.pending.None? && d.pending.Some? && d.pending.value.accepted
             && OneMore(d.entries, m.report.entries, d.pending.value.id)
        else m.report.pending == d.pending && m.report.entries == d.entries)
    && (m.phase.Reserved? || m.phase.Posted? ==> m.report.pending.Some? && !m.report.pending.value.accepted)
    && (m.phase.Accepted? ==> m.report.pending.Some? && m.report.pending.value.accepted)
  }

  /** `after` adds one record, that of case `c`. */
  predicate OneMore(before: seq<Entry>, after: seq<Entry>, c: CaseId) {
    |after| == |before| + 1 && after[..|before|] == before && after[|before|].id == c
  }

  ghost predicate Durable(w: World) {
    w.memory.Some? ==> w.disk.Saved? && Agrees(w.disk.report, w.memory.value)
  }

  lemma StartIsDurable(cases: seq<Case>, w: World, resume: bool)
    requires Durable(w)
    ensures Durable(Started(cases, w, resume))
  {
    hide Restored, Ids;
  }

  lemma NameIsDurable(cases: seq<Case>, w: World, m: Memory, i: nat, newKey: Key)
    requires Durable(w) && w.memory == Some(m)
    ensures Durable(NameCase(cases, w, m, i, newKey))
  {
    hide Ids;
  }

  lemma ReserveIsDurable(cases: seq<Case>, w: World, m: Memory, request: Uuid, continuing: bool)
    requires Durable(w) && w.memory == Some(m)
    ensures Durable(ReserveTicket(cases, w, m, request, continuing))
  {
    hide Ids;
  }

  lemma PostIsDurable(cases: seq<Case>, w: World, m: Memory, rejected: bool)
    requires Durable(w) && w.memory == Some(m)
    ensures Durable(PostCase(cases, w, m, rejected))
  {
    hide Ids, SendOf;
  }

  lemma SettleIsDurable(w: World, m: Memory)
    requires Durable(w) && w.memory == Some(m)
    ensures Durable(SettleCase(w, m))
  {
  }

  lemma NextIsDurable(cases: seq<Case>, w: World, e: Step)
    requires Durable(w)
    ensures Durable(Next(cases, w, e))
  {
    hide Started, NameCase, ReserveTicket, PostCase, SettleCase, Ids;
    if e.Start? {
      StartIsDurable(cases, w, e.resume);
    } else if w.memory.Some? {
      var m := w.memory.value;
      match e
      case Name(i, newKey) => NameIsDurable(cases, w, m, i, newKey);
      case Reserve(request, continuing) => ReserveIsDurable(cases, w, m, request, continuing);
      case Post(rejected) => PostIsDurable(cases, w, m, rejected);
      case Settle => SettleIsDurable(w, m);
      case _ =>
    }
  }

  lemma {:induction false} RunIsDurable(cases: seq<Case>, es: seq<Step>)
    ensures Durable(Run(cases, es))
    decreases |es|
  {
    hide Next, Durable;
    if es != [] {
      RunIsDurable(cases, es[..|es| - 1]);
      NextIsDurable(cases, Run(cases, es[..|es| - 1]), es[|es| - 1]);
    } else {
      assert Durable(BEGINNING) by { BeginningIsDurable(); }
    }
  }

  lemma BeginningIsDurable()
    ensures Durable(BEGINNING)
  {
  }

  /** A request is sent with the message of its case, and only while the file holds its ticket as pending. */
  lemma SavedBeforeSent(cases: seq<Case>, es: seq<Step>, e: Step, i: nat)
    requires Distinct(cases)
    requires |Run(cases, es).sends| <= i < |Next(cases, Run(cases, es), e).sends|
    ensures var w, s := Run(cases, es), Next(cases, Run(cases, es), e).sends[i];
      && w.disk.Saved?
      && w.disk.report.pending == Some(Pending(s.id, Ticket(s.session, s.request, s.continuing), false))
      && exists a :: 0 <= a < |cases| && cases[a].id == s.id && cases[a].prompt == s.prompt
  {
    hide Run, History, Sound, Passed, Started, NameCase, ReserveTicket, SettleCase, Aligned, Ids;
    RunKeepsInv(cases, es);
    RunIsDurable(cases, es);
    var w := Run(cases, es);
    OnlyPostSends(cases, w, e);
    var m := w.memory.value;
    assert cases[m.phase.i].id == m.report.pending.value.id;
  }

  lemma OnlyPostSends(cases: seq<Case>, w: World, e: Step)
    ensures Next(cases, w, e).sends != w.sends ==> e.Post? && w.memory.Some? && w.memory.value.phase.Reserved?
  {
    hide Restored, Ids;
  }

  /** An orderly end, by success or by an exception, leaves all the process knew in the file. */
  lemma EndSaves(cases: seq<Case>, w: World)
    requires w.memory.Some?
    ensures var v, r := Next(cases, w, Fail), w.memory.value.report;
      && v.memory == None && v.disk.Saved? && v.disk.report.entries == r.entries
      && v.disk.report.pending == r.pending && v.disk.report.sessions == r.sessions
      && v.turns == w.turns && v.sends == w.sends && v.receipts == w.receipts
  {
  }

  /**
   While a settled case's record is being written, the file still has the case as pending and
   accepted. The write ends with the record in the file, or with a file cut short; a crash
   before it leaves the case to be taken up again.
   */
  lemma RecordWrite(cases: seq<Case>, es: seq<Step>)
    requires Run(cases, es).memory.Some? && Run(cases, es).memory.value.phase.Writing?
    ensures var w, r := Run(cases, es), Run(cases, es).memory.value.report;
      && w.disk.Saved? && w.disk.report.pending.Some? && w.disk.report.pending.value.accepted
      && OneMore(w.disk.report.entries, r.entries, w.disk.report.pending.value.id)
      && Next(cases, w, WriteReport).disk.Saved? && Next(cases, w, WriteReport).memory.Some?
      && Next(cases, w, WriteReport).disk.report.entries == r.entries
      && Next(cases, w, WriteReport).disk.report.pending == None
      && Next(cases, w, TearReport).disk == Torn && Next(cases, w, TearReport).memory == None
      && Next(cases, w, Crash).disk == w.disk && Next(cases, w, Crash).memory == None
  {
    hide Run;
    RunIsDurable(cases, es);
  }

  /******* An accepted case *******/

  /** The report says that the case was accepted, or has its record. */
  ghost predicate Done(r: Report, c: CaseId) {
    || (r.pending.Some? && r.pending.value.id == c && r.pending.value.accepted)
    || exists i :: 0 <= i < |r.entries| && r.entries[i].id == c
  }

  ghost predicate DoneOnDisk(w: World, c: CaseId) {
    && !w.disk.Missing?
    && (w.disk.Saved? ==> Done(w.disk.report, c))
  }

  lemma DoneInMemory(w: World, c: CaseId)
    requires Durable(w) && DoneOnDisk(w, c) && w.memory.Some?
    ensures Done(w.memory.value.report, c)
  {
    var d, r := w.disk.report, w.memory.value.report;
    if i :| 0 <= i < |d.entries| && d.entries[i].id == c {
      assert r.entries[i].id == c;
    }
  }

  lemma SaveKeepsDone(cases: seq<Case>, w: World, e: Step, c: CaseId)
    requires Durable(w) && DoneOnDisk(w, c) && !e.Start? && !e.Name? && !e.Post? && !e.Settle? && !e.Reserve?
    ensures DoneOnDisk(Next(cases, w, e), c)
  {
    if w.memory.Some? {
      DoneInMemory(w, c);
    }
  }

  lemma ReserveKeepsDone(cases: seq<Case>, w: World, m: Memory, request: Uuid, continuing: bool, c: CaseId)
    requires Durable(w) && DoneOnDisk(w, c) && w.memory == Some(m)
    ensures DoneOnDisk(ReserveTicket(cases, w, m, request, continuing), c)
  {
    DoneInMemory(w, c);
  }

  lemma NextKeepsDone(cases: seq<Case>, w: World, e: Step, c: CaseId)
    requires Durable(w) && DoneOnDisk(w, c)
    ensures DoneOnDisk(Next(cases, w, e), c)
  {
    if e.Reserve? {
      hide Durable, DoneOnDisk, ReserveTicket;
      if w.memory.Some? {
        ReserveKeepsDone(cases, w, w.memory.value, e.request, e.continuing, c);
      }
    } else if e.Start? || e.Name? || e.Post? || e.Settle? {
      hide Durable, Ids, Restored, WithEntries;
    } else {
      hide Durable, DoneOnDisk;
      SaveKeepsDone(cases, w, e, c);
    }
  }

  lemma DoneIsNotSent(cases: seq<Case>, w: World, e: Step, c: CaseId)
    requires Inv(cases, w) && Durable(w) && DoneOnDisk(w, c)
    ensures var v := Next(cases, w, e);
      w.sends <= v.sends && forall i :: |w.sends| <= i < |v.sends| ==> v.sends[i].id != c
  {
    hide History, Started, NameCase, ReserveTicket, SettleCase, Passed, Aligned;
    OnlyPostSends(cases, w, e);
    if w.memory.Some? && w.memory.value.phase.Reserved? {
      var r := w.memory.value.report;
      DoneInMemory(w, c);
      assert forall i :: 0 <= i < |r.entries| ==> r.entries[i].id in Ids(r.entries);
    }
  }

  /** Once the file says that a case was accepted, no continuation of the run sends it again. */
  lemma {:induction false} AcceptedIsFinal(cases: seq<Case>, es: seq<Step>, fs: seq<Step>, c: CaseId)
    requires Distinct(cases) && Run(cases, es).disk.Saved? && Done(Run(cases, es).disk.report, c)
    ensures DoneOnDisk(Run(cases, es + fs), c)
    ensures var w, v := Run(cases, es), Run(cases, es + fs);
      w.sends <= v.sends && forall i :: |w.sends| <= i < |v.sends| ==> v.sends[i].id != c
    decreases |fs|
  {
    hide Next, Inv, History, Durable, Done;
    if fs == [] {
      assert es + fs == es;
    } else {
      var before, last := fs[..|fs| - 1], fs[|fs| - 1];
      AcceptedIsFinal(cases, es, before, c);
      assert (es + fs)[..|es + fs| - 1] == es + before;
      RunKeepsInv(cases, es + before);
      RunIsDurable(cases, es + before);
      NextKeepsDone(cases, Run(cases, es + before), last, c);
      DoneIsNotSent(cases, Run(cases, es + before), last, c);
    }
  }

  /** The server's answer to the pending case is on disk before the runner waits for the turn. */
  lemma AcceptanceIsSaved(cases: seq<Case>, es: seq<Step>)
    requires Distinct(cases) && Run(cases, es).memory.Some? && Run(cases, es).memory.value.phase.Accepted?
    ensures var w := Run(cases, es);
      w.disk.Saved? && w.disk.report.pending.Some? && Done(w.disk.report, w.disk.report.pending.value.id)
  {
    hide Run, History, Sound, Passed, Aligned;
    RunKeepsInv(cases, es);
    RunIsDurable(cases, es);
  }
}
