/**
 V041 row by row: which rows of each table the migration touches, and what it leaves in every
 column, in terms of the rows alone.
 */
module RetirementRows {
  import opened Common
  import opened Retirement
  import opened RetirementLaws

  /******* Audit events *******/

  /** The event the audit trail owes a change set. */
  predicate Announces(e: Audit, c: ChangeSet, now: int) {
    && e.eventId == "legacy-html-retired:" + c.id && e.document == c.document && e.kind == LegacyRetired
    && e.changeSet == Some(c.id) && !e.candidateLoop && e.createdAt == now
  }

  /** The old editor created the change set, and the audit trail says so. */
  ghost predicate FromCandidateLoop(t: Tables, c: ChangeSet) {
    exists a: Audit ::
      && a in t.audits && a.kind == Created && a.candidateLoop && a.changeSet == Some(c.id) && a.document == c.document
  }

  lemma {:induction false} AnnouncedEntries(audits: seq<Audit>, sets: seq<ChangeSet>, now: int, k: nat)
    requires |audits| <= k < |Announced(audits, sets, now)|
    ensures exists c :: c in sets && Legacy(audits, c) && Announces(Announced(audits, sets, now)[k], c, now)
    ensures forall j :: 0 <= j < k ==>
      Announced(audits, sets, now)[j].eventId != Announced(audits, sets, now)[k].eventId
    decreases |sets|
  {
    var next := Announce(audits, sets[0], now);
    AnnouncedExtends(next, sets[1..], now);
    if k < |next| {
      var c := sets[0];
      assert Announced(audits, sets, now)[k] == next[k] && Announces(next[k], c, now);
      forall j | 0 <= j < k ensures Announced(audits, sets, now)[j].eventId != next[k].eventId {
        assert Announced(audits, sets, now)[j] == next[j] == audits[j] && audits[j] in audits;
      }
    } else {
      AnnouncedEntries(next, sets[1..], now, k);
      var c :| c in sets[1..] && Legacy(next, c) && Announces(Announced(next, sets[1..], now)[k], c, now);
      AnnounceKeepsLegacy(audits, sets[0], now, c);
      assert c in sets;
    }
  }

  /** Every change set of the old editor has its retirement event, under its own id. */
  lemma EveryLegacySetIsAnnounced(t: Tables, clock: Clock, i: nat)
    requires i < |t.sets| && FromCandidateLoop(t, t.sets[i])
    ensures exists e :: e in Retired(t, clock).audits && e.eventId == "legacy-html-retired:" + t.sets[i].id
  {
    AnnouncedCovers(t.audits, t.sets, clock.audit, t.sets[i]);
    var e :| e in Retired(t, clock).audits && e.eventId == RetiredEvent(t.sets[i], clock.audit).eventId;
    assert e.eventId == "legacy-html-retired:" + t.sets[i].id;
  }

  /** The old trail is kept; a new event speaks of one change set of the old editor, and no id is used twice. */
  lemma NewEventsAreRetirements(t: Tables, clock: Clock, k: nat)
    requires |t.audits| <= k < |Retired(t, clock).audits|
    ensures t.audits <= Retired(t, clock).audits
    ensures exists c :: c in t.sets && FromCandidateLoop(t, c) && Announces(Retired(t, clock).audits[k], c, clock.audit)
    ensures forall j :: 0 <= j < k ==> Retired(t, clock).audits[j].eventId != Retired(t, clock).audits[k].eventId
  {
    AnnouncedExtends(t.audits, t.sets, clock.audit);
    AnnouncedEntries(t.audits, t.sets, clock.audit, k);
    var c :| c in t.sets && Legacy(t.audits, c) && Announces(Retired(t, clock).audits[k], c, clock.audit);
    assert FromCandidateLoop(t, c);
  }

  /******* Attempts *******/

  /** The editor's change set for the attempt: same document, same turn, same base revision. */
  ghost predicate EditorSet(t: Tables, a: Attempt, c: ChangeSet) {
    && c in t.sets && FromCandidateLoop(t, c)
    && c.document == a.document && c.turn == Some(a.turn) && c.base == a.base
  }

  /** The change set was applied as revision `r`, which the attempt's own receipt, if any, confirms. */
  ghost predicate CommittedAs(t: Tables, a: Attempt, c: ChangeSet, r: Revision) {
    && EditorSet(t, a, c) && c.status == Applied && c.applied == Some(r.id)
    && r in t.revisions && r.document == c.document && r.parent == Some(c.base) && r.changeSet == Some(c.id)
    && c.candidate == Some(r.artifact) && c.candidateSha == Some(r.sha)
    && (a.candidate == None || (a.candidate == Some(r.artifact) && a.candidateSha == Some(r.sha)))
  }

  ghost predicate Committed(t: Tables, a: Attempt) {
    exists c, r :: CommittedAs(t, a, c, r)
  }

  ghost predicate Abandoned(t: Tables, a: Attempt) {
    exists c :: EditorSet(t, a, c)
      && (c.status == Failed || c.status == Rejected || c.status == Conflict || c.status == Draft || c.status == Ready)
  }

  lemma CommittedIsVerified(t: Tables, a: Attempt)
    ensures Committed(t, a) <==> Verified(t, a)
  {
    if Committed(t, a) {
      var c, r :| CommittedAs(t, a, c, r);
      assert Legacy(t.audits, c) && Owns(c, a) && Commits(c, r, a);
    }
    if Verified(t, a) {
      var c, r :| c in t.sets && r in t.revisions && Legacy(t.audits, c) && Owns(c, a) && Commits(c, r, a);
      assert FromCandidateLoop(t, c) && CommittedAs(t, a, c, r);
    }
  }

  lemma AbandonedIsDoomed(t: Tables, a: Attempt)
    ensures Abandoned(t, a) <==> Doomed(t, a)
  {
    if Abandoned(t, a) {
      var c :| EditorSet(t, a, c)
        && (c.status == Failed || c.status == Rejected || c.status == Conflict
            || c.status == Draft || c.status == Ready);
      assert Legacy(t.audits, c) && Owns(c, a);
    }
    if Doomed(t, a) {
      var c :| c in t.sets && Legacy(t.audits, c) && Owns(c, a) && (Dead(c.status) || Unsettled(c.status));
      assert FromCandidateLoop(t, c) && EditorSet(t, a, c);
    }
  }

  /** What stays of an attempt whatever happens to it. */
  predicate SameAttempt(a: Attempt, b: Attempt) {
    && b.id == a.id && b.document == a.document && b.turn == a.turn && b.base == a.base
    && b.candidate == a.candidate && b.candidateSha == a.candidateSha && b.rest == a.rest
  }

  predicate Bumped(before: int, after: int, was: int, updated: int, now: int) {
    after == before + 1 && updated >= was && updated >= now && (updated == was || updated == now)
  }

  /**
   A waiting attempt is reported as applied exactly when its commit can be proved, else as
   failed exactly when it is reserved and its change set is dead or open; nothing else moves.
   */
  lemma AttemptOutcome(t: Tables, clock: Clock, i: nat)
    requires i < |t.attempts|
    ensures |Retired(t, clock).attempts| == |t.attempts|
    ensures var a, b := t.attempts[i], Retired(t, clock).attempts[i];
      && SameAttempt(a, b)
      && if (a.status == Reserved || a.status == Ambiguous) && Committed(t, a) then
           && b.status == AppliedAttempt && b.failureCode == None
           && Bumped(a.stateRevision, b.stateRevision, a.updatedAt, b.updatedAt, clock.commit)
         else if a.status == Reserved && Abandoned(t, a) then
           && b.status == FailedAttempt && b.failureCode == Some("LEGACY_HTML_EDITOR_RETIRED")
           && b.changeSet == a.changeSet && b.revision == a.revision
           && Bumped(a.stateRevision, b.stateRevision, a.updatedAt, b.updatedAt, clock.attempts)
         else b == a
  {
    hide Verified, Doomed, Committed, Abandoned, FirstOf, Announced, Recorded;
    CommittedIsVerified(t, t.attempts[i]);
    AbandonedIsDoomed(t, t.attempts[i]);
  }

  /** With one change set a turn, a proved commit is filed under the very change set and revision that prove it. */
  lemma CommitIsFiled(t: Tables, clock: Clock, i: nat, c: ChangeSet, r: Revision)
    requires TurnsUnique(t.sets) && i < |t.attempts| && CommittedAs(t, t.attempts[i], c, r)
    requires t.attempts[i].status == Reserved || t.attempts[i].status == Ambiguous
    ensures Retired(t, clock).attempts[i].changeSet == Some(c.id)
    ensures Retired(t, clock).attempts[i].revision == Some(r.id)
  {
    hide Verified, Doomed, Announced, Recorded, FirstOf;
    var a := t.attempts[i];
    assert Committed(t, a);
    CommittedIsVerified(t, a);
    UniqueTurnFindsIt(t.sets, a, c);
  }

  /******* Change sets, sessions, leases, versions *******/

  /** An open change set of the old editor is failed; any other row stays. */
  lemma SetOutcome(t: Tables, clock: Clock, i: nat)
    requires i < |t.sets|
    ensures |Retired(t, clock).sets| == |t.sets|
    ensures var c, d := t.sets[i], Retired(t, clock).sets[i];
      if (c.status == Draft || c.status == Ready) && FromCandidateLoop(t, c) then
        && d.status == Failed && Bumped(c.stateRevision, d.stateRevision, c.updatedAt, d.updatedAt, clock.sets)
        && d.(status := c.status, stateRevision := c.stateRevision, updatedAt := c.updatedAt) == c
      else d == c
  {
    hide Announced, Recorded, Verified, Doomed;
    if Legacy(t.audits, t.sets[i]) {
      assert FromCandidateLoop(t, t.sets[i]);
    }
  }

  /** An active session is closed and never outlives the migration, nor is it extended. */
  lemma SessionOutcome(t: Tables, clock: Clock, i: nat)
    requires i < |t.sessions|
    ensures |Retired(t, clock).sessions| == |t.sessions|
    ensures var s, u := t.sessions[i], Retired(t, clock).sessions[i];
      if s.status == Active then
        && u.status == Closed && u.id == s.id && u.rest == s.rest
        && u.expiresAt <= s.expiresAt && u.expiresAt <= clock.sessions
        && (u.expiresAt == s.expiresAt || u.expiresAt == clock.sessions)
        && Bumped(s.stateRevision, u.stateRevision, s.updatedAt, u.updatedAt, clock.sessions)
      else u == s
  {
    hide Announced, Recorded, Verified, Doomed;
  }

  /** A live lease expires at once; its holder's fencing number stays. */
  lemma LeaseOutcome(t: Tables, clock: Clock, i: nat)
    requires i < |t.leases|
    ensures |Retired(t, clock).leases| == |t.leases|
    ensures var l, m := t.leases[i], Retired(t, clock).leases[i];
      if l.expiresAt > 0 then
        && m.expiresAt == 0 && m.document == l.document && m.fencing == l.fencing && m.rest == l.rest
        && m.updatedAt >= l.updatedAt && m.updatedAt >= clock.leases
        && (m.updatedAt == l.updatedAt || m.updatedAt == clock.leases)
      else m == l
  {
    hide Announced, Recorded, Verified, Doomed;
  }

  /** The version row that a working file and its source give. */
  predicate Describes(v: Version, w: Working, s: Source) {
    && v.revision == w.base && v.document == w.document && w.document == s.document
    && v.root == w.root && v.entrypoint == w.entrypoint && v.mode == s.mode && v.bundleRoot == s.bundleRoot
  }

  lemma {:induction false} RecordedForEntries(versions: seq<Version>, w: Working, sources: seq<Source>, k: nat)
    requires |versions| <= k < |RecordedFor(versions, w, sources)|
    ensures exists s :: s in sources && Describes(RecordedFor(versions, w, sources)[k], w, s)
    decreases |sources|
  {
    var next := RecordVersion(versions, w, sources[0]);
    RecordedForExtends(next, w, sources[1..]);
    if k < |next| {
      assert Describes(next[k], w, sources[0]) && RecordedFor(versions, w, sources)[k] == next[k];
    } else {
      RecordedForEntries(next, w, sources[1..], k);
    }
  }

  lemma {:induction false} RecordedEntries(versions: seq<Version>, working: seq<Working>, sources: seq<Source>, k: nat)
    requires |versions| <= k < |Recorded(versions, working, sources)|
    ensures exists w, s :: w in working && s in sources && Describes(Recorded(versions, working, sources)[k], w, s)
    decreases |working|
  {
    var next := RecordedFor(versions, working[0], sources);
    RecordedExtends(next, working[1..], sources);
    if k < |next| {
      RecordedForEntries(versions, working[0], sources, k);
      assert Recorded(versions, working, sources)[k] == next[k];
      var s :| s in sources && Describes(next[k], working[0], s);
      assert working[0] in working;
    } else {
      RecordedEntries(next, working[1..], sources, k);
      var w, s :| w in working[1..] && s in sources && Describes(Recorded(next, working[1..], sources)[k], w, s);
      assert w in working;
    }
  }

  /** Every new version row describes one working file and its source, column by column. */
  lemma NewVersionsDescribe(t: Tables, clock: Clock, k: nat)
    requires |t.versions| <= k < |Retired(t, clock).versions|
    ensures t.versions <= Retired(t, clock).versions
    ensures exists w, s :: w in t.working && s in t.sources && Describes(Retired(t, clock).versions[k], w, s)
  {
    RecordedExtends(t.versions, t.working, t.sources);
    RecordedEntries(t.versions, t.working, t.sources, k);
  }

  /** And every working file with a source has its version. */
  lemma EveryWorkingFileHasVersion(t: Tables, clock: Clock, w: Working, s: Source)
    requires w in t.working && s in t.sources && s.document == w.document
    ensures exists v :: v in Retired(t, clock).versions && v.revision == w.base
  {
    RecordedCovers(t.versions, t.working, t.sources, w);
    assert HasVersion(Retired(t, clock).versions, w.base);
  }
}
