/**
 Migration V041: retire discontinued HTML editing sessions.

 The migration is a list of bulk statements over linked tables. `Retired` is what they are
 meant to do to each row, decided from the state before the migration; class `Store` runs
 the statements one after the other, row by row, each seeing what the earlier ones wrote.
 */
module Retirement {
  import opened Common

  type Id = string

  datatype SetStatus = Draft | Ready | Applied | Rejected | Conflict | Failed | OtherSet(text: string)
  datatype AttemptStatus = Reserved | AppliedAttempt | FailedAttempt | Ambiguous
  datatype EventKind = Created | LegacyRetired | OtherEvent(text: string)
  datatype SessionStatus = Active | Closed | OtherSession(text: string)

  /** `rest` stands for the columns no statement reads or writes. */
  datatype ChangeSet = ChangeSet(
    id: Id, document: Id, base: Id, turn: Option<Id>, status: SetStatus,
    candidate: Option<Id>, candidateSha: Option<string>, applied: Option<Id>,
    stateRevision: int, updatedAt: int, rest: string)

  datatype Revision = Revision(
    id: Id, document: Id, parent: Option<Id>, changeSet: Option<Id>, artifact: Id, sha: string)

  datatype Attempt = Attempt(
    id: Id, document: Id, turn: Id, base: Id, status: AttemptStatus,
    changeSet: Option<Id>, revision: Option<Id>, failureCode: Option<string>,
    candidate: Option<Id>, candidateSha: Option<string>,
    stateRevision: int, updatedAt: int, rest: string)

  /** `candidateLoop` is json_type(payload, '$.candidate_loop') = 'true'. */
  datatype Audit = Audit(
    eventId: string, document: Id, kind: EventKind, changeSet: Option<Id>, candidateLoop: bool, createdAt: int)

  datatype Session = Session(
    id: Id, status: SessionStatus, stateRevision: int, expiresAt: int, updatedAt: int, rest: string)

  datatype Lease = Lease(document: Id, fencing: int, expiresAt: int, updatedAt: int, rest: string)

  datatype Working = Working(document: Id, root: string, entrypoint: string, base: Id)

  datatype Source = Source(document: Id, mode: string, bundleRoot: Option<string>)

  datatype Version = Version(
    revision: Id, document: Id, root: string, entrypoint: string, mode: string, bundleRoot: Option<string>)

  datatype Tables = Tables(
    sets: seq<ChangeSet>, attempts: seq<Attempt>, revisions: seq<Revision>, audits: seq<Audit>,
    sessions: seq<Session>, leases: seq<Lease>,
    working: seq<Working>, sources: seq<Source>, versions: seq<Version>)

  /** The clock each statement reads. */
  datatype Clock = Clock(audit: int, commit: int, sets: int, attempts: int, sessions: int, leases: int)

  const RETIRED_CODE: string := "LEGACY_HTML_EDITOR_RETIRED"

  /******* Which rows the statements select *******/

  /** Created by the candidate loop of the old editor, and audited for this very document. */
  predicate Legacy(audits: seq<Audit>, c: ChangeSet) {
    exists a :: a in audits && a.changeSet == Some(c.id) && a.document == c.document
      && a.kind == Created && a.candidateLoop
  }

  /** The change set belongs to the attempt: same document, turn and base revision. */
  predicate Owns(c: ChangeSet, a: Attempt) {
    c.document == a.document && c.turn == Some(a.turn) && c.base == a.base
  }

  /** The revision is the committed result of the change set, and the attempt's receipt agrees. */
  predicate Commits(c: ChangeSet, r: Revision, a: Attempt) {
    && c.applied == Some(r.id) && c.status == Applied
    && r.document == c.document && r.parent == Some(c.base) && r.changeSet == Some(c.id)
    && c.candidate == Some(r.artifact) && c.candidateSha == Some(r.sha)
    && (a.candidate.None? || (a.candidate == Some(r.artifact) && a.candidateSha == Some(r.sha)))
  }

  predicate Verified(t: Tables, a: Attempt) {
    exists c, r :: c in t.sets && r in t.revisions && Legacy(t.audits, c) && Owns(c, a) && Commits(c, r, a)
  }

  predicate Unsettled(s: SetStatus) { s == Draft || s == Ready }
  predicate Dead(s: SetStatus) { s == Failed || s == Rejected || s == Conflict }

  /** A legacy change set of the attempt is dead. */
  predicate Stranded(t: Tables, a: Attempt) {
    exists c :: c in t.sets && Legacy(t.audits, c) && Owns(c, a) && Dead(c.status)
  }

  /** A legacy change set of the attempt is dead, or will be once drafts are failed. */
  predicate Doomed(t: Tables, a: Attempt) {
    exists c :: c in t.sets && Legacy(t.audits, c) && Owns(c, a) && (Dead(c.status) || Unsettled(c.status))
  }

  /** The scalar subquery: the first change set of the document and turn, if any. */
  function FirstOf(sets: seq<ChangeSet>, a: Attempt): Option<ChangeSet> {
    if sets == [] then None
    else if sets[0].document == a.document && sets[0].turn == Some(a.turn) then Some(sets[0])
    else FirstOf(sets[1..], a)
  }

  /******* What happens to a selected row *******/

  function MarkApplied(sets: seq<ChangeSet>, a: Attempt, now: int): Attempt {
    var c := FirstOf(sets, a);
    a.(status := AppliedAttempt, failureCode := None,
       changeSet := if c.Some? then Some(c.value.id) else None,
       revision := if c.Some? then c.value.applied else None,
       stateRevision := a.stateRevision + 1, updatedAt := Max(a.updatedAt, now))
  }

  function MarkFailed(a: Attempt, now: int): Attempt {
    a.(status := FailedAttempt, failureCode := Some(RETIRED_CODE),
       stateRevision := a.stateRevision + 1, updatedAt := Max(a.updatedAt, now))
  }

  function FailSet(c: ChangeSet, now: int): ChangeSet {
    c.(status := Failed, stateRevision := c.stateRevision + 1, updatedAt := Max(c.updatedAt, now))
  }

  function CloseSession(s: Session, now: int): Session {
    s.(status := Closed, stateRevision := s.stateRevision + 1,
       expiresAt := Min(s.expiresAt, now), updatedAt := Max(s.updatedAt, now))
  }

  function RetiredEvent(c: ChangeSet, now: int): Audit {
    Audit("legacy-html-retired:" + c.id, c.document, LegacyRetired, Some(c.id), false, now)
  }

  /******* The two failing statements *******/

  function SetsFailed(t: Tables, now: int): Tables {
    t.(sets := seq(|t.sets|, i requires 0 <= i < |t.sets| =>
      if Unsettled(t.sets[i].status) && Legacy(t.audits, t.sets[i]) then FailSet(t.sets[i], now) else t.sets[i]))
  }

  function AttemptsFailed(t: Tables, now: int): Tables {
    t.(attempts := seq(|t.attempts|, i requires 0 <= i < |t.attempts| =>
      if t.attempts[i].status == Reserved && Stranded(t, t.attempts[i])
      then MarkFailed(t.attempts[i], now) else t.attempts[i]))
  }

  /******* The meaning of the whole migration, row by row *******/

  function RetiredSet(t: Tables, c: ChangeSet, clock: Clock): ChangeSet {
    if Unsettled(c.status) && Legacy(t.audits, c) then FailSet(c, clock.sets) else c
  }

  function RetiredAttempt(t: Tables, a: Attempt, clock: Clock): Attempt {
    if (a.status == Reserved || a.status == Ambiguous) && Verified(t, a) then MarkApplied(t.sets, a, clock.commit)
    else if a.status == Reserved && Doomed(t, a) then MarkFailed(a, clock.attempts)
    else a
  }

  function RetiredSession(s: Session, clock: Clock): Session {
    if s.status == Active then CloseSession(s, clock.sessions) else s
  }

  function RetiredLease(l: Lease, clock: Clock): Lease {
    if l.expiresAt > 0 then l.(expiresAt := 0, updatedAt := Max(l.updatedAt, clock.leases)) else l
  }

  predicate HasEvent(audits: seq<Audit>, eventId: string) {
    exists a :: a in audits && a.eventId == eventId
  }

  /** One retirement event per legacy change set, in table order, unless it is already there. */
  function Announced(audits: seq<Audit>, sets: seq<ChangeSet>, now: int): seq<Audit>
    decreases |sets|
  {
    if sets == [] then audits
    else Announced(Announce(audits, sets[0], now), sets[1..], now)
  }

  function Announce(audits: seq<Audit>, c: ChangeSet, now: int): seq<Audit> {
    if Legacy(audits, c) && !HasEvent(audits, RetiredEvent(c, now).eventId)
    then audits + [RetiredEvent(c, now)] else audits
  }

  predicate HasVersion(versions: seq<Version>, revision: Id) {
    exists v :: v in versions && v.revision == revision
  }

  function RecordVersion(versions: seq<Version>, w: Working, s: Source): seq<Version> {
    if w.document == s.document && !HasVersion(versions, w.base)
    then versions + [Version(w.base, w.document, w.root, w.entrypoint, s.mode, s.bundleRoot)]
    else versions
  }

  function RecordedFor(versions: seq<Version>, w: Working, sources: seq<Source>): seq<Version>
    decreases |sources|
  {
    if sources == [] then versions
    else RecordedFor(RecordVersion(versions, w, sources[0]), w, sources[1..])
  }

  /** One version per working file with a source, in join order; existing keys win. */
  function Recorded(versions: seq<Version>, working: seq<Working>, sources: seq<Source>): seq<Version>
    decreases |working|
  {
    if working == [] then versions
    else Recorded(RecordedFor(versions, working[0], sources), working[1..], sources)
  }

  function Retired(t: Tables, clock: Clock): Tables {
    t.(sets := seq(|t.sets|, i requires 0 <= i < |t.sets| => RetiredSet(t, t.sets[i], clock)),
       attempts := seq(|t.attempts|, i requires 0 <= i < |t.attempts| => RetiredAttempt(t, t.attempts[i], clock)),
       audits := Announced(t.audits, t.sets, clock.audit),
       sessions := seq(|t.sessions|, i requires 0 <= i < |t.sessions| => RetiredSession(t.sessions[i], clock)),
       leases := seq(|t.leases|, i requires 0 <= i < |t.leases| => RetiredLease(t.leases[i], clock)),
       versions := Recorded(t.versions, t.working, t.sources))
  }

  /******* Retirement events do not change what is legacy *******/

  lemma AnnounceKeepsLegacy(audits: seq<Audit>, c: ChangeSet, now: int, d: ChangeSet)
    ensures Legacy(Announce(audits, c, now), d) <==> Legacy(audits, d)
  {
    var out := Announce(audits, c, now);
    if Legacy(out, d) {
      var a :| a in out && a.changeSet == Some(d.id) && a.document == d.document
               && a.kind == Created && a.candidateLoop;
      assert a in audits;
    }
    if Legacy(audits, d) {
      var a :| a in audits && a.changeSet == Some(d.id) && a.document == d.document
               && a.kind == Created && a.candidateLoop;
      assert a in out;
    }
  }

  lemma AnnouncedKeepsLegacy(audits: seq<Audit>, sets: seq<ChangeSet>, now: int, d: ChangeSet)
    ensures Legacy(Announced(audits, sets, now), d) <==> Legacy(audits, d)
    decreases |sets|
  {
    if sets != [] {
      AnnounceKeepsLegacy(audits, sets[0], now, d);
      AnnouncedKeepsLegacy(Announce(audits, sets[0], now), sets[1..], now, d);
    }
  }

  /******* The statements *******/

  class Store {
    var t: Tables

    constructor (t: Tables)
      ensures this.t == t
    {
      this.t := t;
    }

    /** INSERT OR IGNORE INTO artifact_audit_events ... SELECT ... FROM artifact_change_sets. */
    method AnnounceRetirements(now: int)
      modifies this
      ensures t == old(t).(audits := Announced(old(t).audits, old(t).sets, now))
    {
      var i := 0;
      while i < |t.sets|
        invariant 0 <= i <= |t.sets|
        invariant t == old(t).(audits := t.audits)
        invariant Announced(old(t).audits, old(t).sets, now) == Announced(t.audits, t.sets[i..], now)
      {
        assert t.sets[i..][0] == t.sets[i] && t.sets[i..][1..] == t.sets[i + 1..];
        t := t.(audits := Announce(t.audits, t.sets[i], now));
        i := i + 1;
      }
    }

    /** UPDATE attempts SET status = 'applied' WHERE the revision is verified. */
    method ApplyVerified(now: int)
      modifies this
      ensures t == old(t).(attempts := t.attempts) && |t.attempts| == |old(t).attempts|
      ensures forall i :: 0 <= i < |t.attempts| ==>
        var a := old(t).attempts[i];
        t.attempts[i] == if (a.status == Reserved || a.status == Ambiguous) && Verified(old(t), a)
                         then MarkApplied(old(t).sets, a, now) else a
    {
      var i := 0;
      while i < |t.attempts|
        invariant 0 <= i <= |t.attempts| == |old(t).attempts|
        invariant t == old(t).(attempts := t.attempts)
        invariant forall j :: i <= j < |t.attempts| ==> t.attempts[j] == old(t).attempts[j]
        invariant forall j :: 0 <= j < i ==>
          var a := old(t).attempts[j];
          t.attempts[j] == if (a.status == Reserved || a.status == Ambiguous) && Verified(old(t), a)
                           then MarkApplied(old(t).sets, a, now) else a
      {
        var a := t.attempts[i];
        assert Verified(t, a) == Verified(old(t), a);
        if (a.status == Reserved || a.status == Ambiguous) && Verified(t, a) {
          t := t.(attempts := t.attempts[i := MarkApplied(t.sets, a, now)]);
        }
        i := i + 1;
      }
    }

    /** UPDATE change_sets SET status = 'failed' WHERE legacy and draft or ready. */
    method FailUnsettledSets(now: int)
      modifies this
      ensures t == SetsFailed(old(t), now)
    {
      var i := 0;
      while i < |t.sets|
        invariant 0 <= i <= |t.sets| == |old(t).sets|
        invariant t == old(t).(sets := t.sets)
        invariant forall j :: i <= j < |t.sets| ==> t.sets[j] == old(t).sets[j]
        invariant forall j :: 0 <= j < i ==>
          var c := old(t).sets[j];
          t.sets[j] == if Unsettled(c.status) && Legacy(t.audits, c) then FailSet(c, now) else c
      {
        var c := t.sets[i];
        if Unsettled(c.status) && Legacy(t.audits, c) {
          t := t.(sets := t.sets[i := FailSet(c, now)]);
        }
        i := i + 1;
      }
    }

    /** UPDATE attempts SET status = 'failed' WHERE reserved and a legacy change set is dead. */
    method FailStranded(now: int)
      modifies this
      ensures t == AttemptsFailed(old(t), now)
    {
      var i := 0;
      while i < |t.attempts|
        invariant 0 <= i <= |t.attempts| == |old(t).attempts|
        invariant t == old(t).(attempts := t.attempts)
        invariant forall j :: i <= j < |t.attempts| ==> t.attempts[j] == old(t).attempts[j]
        invariant forall j :: 0 <= j < i ==>
          var a := old(t).attempts[j];
          t.attempts[j] == if a.status == Reserved && Stranded(old(t), a) then MarkFailed(a, now) else a
      {
        var a := t.attempts[i];
        assert Stranded(t, a) == Stranded(old(t), a);
        if a.status == Reserved && Stranded(t, a) {
          t := t.(attempts := t.attempts[i := MarkFailed(a, now)]);
        }
        i := i + 1;
      }
    }

    method CloseSessions(clock: Clock)
      modifies this
      ensures t == old(t).(sessions :=
        seq(|old(t).sessions|, i requires 0 <= i < |old(t).sessions| => RetiredSession(old(t).sessions[i], clock)))
    {
      var i := 0;
      while i < |t.sessions|
        invariant 0 <= i <= |t.sessions| == |old(t).sessions|
        invariant t == old(t).(sessions := t.sessions)
        invariant forall j :: i <= j < |t.sessions| ==> t.sessions[j] == old(t).sessions[j]
        invariant forall j :: 0 <= j < i ==> t.sessions[j] == RetiredSession(old(t).sessions[j], clock)
      {
        if t.sessions[i].status == Active {
          t := t.(sessions := t.sessions[i := CloseSession(t.sessions[i], clock.sessions)]);
        }
        i := i + 1;
      }
    }

    method ExpireLeases(clock: Clock)
      modifies this
      ensures t == old(t).(leases :=
        seq(|old(t).leases|, i requires 0 <= i < |old(t).leases| => RetiredLease(old(t).leases[i], clock)))
    {
      var i := 0;
      while i < |t.leases|
        invariant 0 <= i <= |t.leases| == |old(t).leases|
        invariant t == old(t).(leases := t.leases)
        invariant forall j :: i <= j < |t.leases| ==> t.leases[j] == old(t).leases[j]
        invariant forall j :: 0 <= j < i ==> t.leases[j] == RetiredLease(old(t).leases[j], clock)
      {
        if t.leases[i].expiresAt > 0 {
          var l := t.leases[i];
          t := t.(leases := t.leases[i := l.(expiresAt := 0, updatedAt := Max(l.updatedAt, clock.leases))]);
        }
        i := i + 1;
      }
    }

    /** INSERT OR IGNORE INTO artifact_working_source_versions ... JOIN ... USING(document_id). */
    method RecordVersions()
      modifies this
      ensures t == old(t).(versions := Recorded(old(t).versions, old(t).working, old(t).sources))
    {
      var i := 0;
      while i < |t.working|
        invariant 0 <= i <= |t.working|
        invariant t == old(t).(versions := t.versions)
        invariant Recorded(old(t).versions, t.working, t.sources) == Recorded(t.versions, t.working[i..], t.sources)
      {
        assert t.working[i..][0] == t.working[i] && t.working[i..][1..] == t.working[i + 1..];
        ghost var start := t.versions;
        var j := 0;
        while j < |t.sources|
          invariant 0 <= j <= |t.sources|
          invariant t == old(t).(versions := t.versions)
          invariant RecordedFor(start, t.working[i], t.sources) == RecordedFor(t.versions, t.working[i], t.sources[j..])
        {
          assert t.sources[j..][0] == t.sources[j] && t.sources[j..][1..] == t.sources[j + 1..];
          t := t.(versions := RecordVersion(t.versions, t.working[i], t.sources[j]));
          j := j + 1;
        }
        i := i + 1;
      }
    }

    /** apply_step: the statements in order amount to deciding every row once. */
    method Apply(clock: Clock)
      modifies this
      ensures t == Retired(old(t), clock)
    {
      AnnounceRetirements(clock.audit);
      ghost var t1 := t;
      ApplyVerified(clock.commit);
      FailUnsettledSets(clock.sets);
      ghost var t3 := t;
      FailStranded(clock.attempts);
      assert t.sets == Retired(old(t), clock).sets by {
        forall i | 0 <= i < |t.sets| ensures t.sets[i] == RetiredSet(old(t), old(t).sets[i], clock) {
          AnnouncedKeepsLegacy(old(t).audits, old(t).sets, clock.audit, old(t).sets[i]);
        }
      }
      assert t.attempts == Retired(old(t), clock).attempts by {
        forall i | 0 <= i < |t.attempts| ensures t.attempts[i] == RetiredAttempt(old(t), old(t).attempts[i], clock) {
          var a := old(t).attempts[i];
          VerifiedAfterAnnouncing(old(t), t1, clock.audit, a);
          StrandedIsDoomed(old(t), t3, clock, a);
        }
      }
      CloseSessions(clock);
      ExpireLeases(clock);
      RecordVersions();
    }
  }

  lemma VerifiedAfterAnnouncing(t: Tables, u: Tables, now: int, a: Attempt)
    requires u == t.(audits := Announced(t.audits, t.sets, now))
    ensures Verified(u, a) <==> Verified(t, a)
  {
    forall c | c in t.sets ensures Legacy(u.audits, c) <==> Legacy(t.audits, c) {
      AnnouncedKeepsLegacy(t.audits, t.sets, now, c);
    }
  }

  predicate Dooms(audits: seq<Audit>, c: ChangeSet, a: Attempt, early: bool) {
    Legacy(audits, c) && Owns(c, a) && (Dead(c.status) || (early && Unsettled(c.status)))
  }

  lemma SetDoom(t: Tables, u: Tables, clock: Clock, a: Attempt, i: nat)
    requires u.audits == Announced(t.audits, t.sets, clock.audit) && |u.sets| == |t.sets| && i < |t.sets|
    requires u.sets[i] == if Unsettled(t.sets[i].status) && Legacy(u.audits, t.sets[i])
                          then FailSet(t.sets[i], clock.sets) else t.sets[i]
    ensures Dooms(u.audits, u.sets[i], a, false) <==> Dooms(t.audits, t.sets[i], a, true)
  {
    AnnouncedKeepsLegacy(t.audits, t.sets, clock.audit, t.sets[i]);
    LegacyByIdentity(u.audits, t.sets[i], u.sets[i]);
  }

  /** Once the unsettled legacy change sets are failed, dead ones are the doomed ones. */
  lemma StrandedIsDoomed(t: Tables, u: Tables, clock: Clock, a: Attempt)
    requires u.audits == Announced(t.audits, t.sets, clock.audit) && |u.sets| == |t.sets|
    requires forall i :: 0 <= i < |t.sets| ==>
      u.sets[i] == if Unsettled(t.sets[i].status) && Legacy(u.audits, t.sets[i])
                   then FailSet(t.sets[i], clock.sets) else t.sets[i]
    ensures Stranded(u, a) <==> Doomed(t, a)
  {
    hide Legacy, Owns, Announced, FailSet;
    forall i | 0 <= i < |t.sets|
      ensures Dooms(u.audits, u.sets[i], a, false) <==> Dooms(t.audits, t.sets[i], a, true)
    {
      SetDoom(t, u, clock, a, i);
    }
    if Stranded(u, a) {
      var c :| c in u.sets && Legacy(u.audits, c) && Owns(c, a) && Dead(c.status);
      var i :| 0 <= i < |u.sets| && u.sets[i] == c;
      assert t.sets[i] in t.sets;
    }
    if Doomed(t, a) {
      var c :| c in t.sets && Legacy(t.audits, c) && Owns(c, a) && (Dead(c.status) || Unsettled(c.status));
      var i :| 0 <= i < |t.sets| && t.sets[i] == c;
      assert u.sets[i] in u.sets;
    }
  }

  lemma LegacyByIdentity(audits: seq<Audit>, c: ChangeSet, d: ChangeSet)
    requires c.id == d.id && c.document == d.document
    ensures Legacy(audits, c) <==> Legacy(audits, d)
  {
  }
}
