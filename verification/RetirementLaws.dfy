/**
 What V041 guarantees: the constraints of V037 and V039 survive, one pass settles every
 legacy change set and attempt, nothing else moves, and a second run changes nothing.
 */
module RetirementLaws {
  import opened Common
  import opened Retirement

  /******* The constraints of the artifact tables *******/

  /** The partial unique index on artifact_change_sets(turn_id). */
  predicate TurnsUnique(sets: seq<ChangeSet>) {
    forall i, j :: 0 <= i < j < |sets| && sets[i].turn.Some? ==> sets[i].turn != sets[j].turn
  }

  predicate SetIdsDistinct(sets: seq<ChangeSet>) {
    forall i, j :: 0 <= i < j < |sets| ==> sets[i].id != sets[j].id
  }

  /** The CHECK constraints of artifact_mutation_attempts. */
  predicate AttemptOk(a: Attempt) {
    && (match a.status
        case Reserved => a.changeSet.None? && a.revision.None? && a.failureCode.None?
        case AppliedAttempt => a.changeSet.Some? && a.revision.Some? && a.failureCode.None?
        case FailedAttempt => a.failureCode.Some?
        case Ambiguous => a.failureCode.Some?)
    && (a.failureCode.Some? ==> |a.failureCode.value| <= 128)
    && (a.candidate.Some? <==> a.candidateSha.Some?)
    && a.stateRevision >= 1
  }

  predicate HasSet(sets: seq<ChangeSet>, id: Id) { exists c :: c in sets && c.id == id }
  predicate HasRevision(revisions: seq<Revision>, id: Id) { exists r :: r in revisions && r.id == id }

  predicate References(t: Tables, a: Attempt) {
    && (a.changeSet.Some? ==> HasSet(t.sets, a.changeSet.value))
    && (a.revision.Some? ==> HasRevision(t.revisions, a.revision.value))
  }

  predicate EventsDistinct(audits: seq<Audit>) {
    forall i, j :: 0 <= i < j < |audits| ==> audits[i].eventId != audits[j].eventId
  }

  predicate VersionsDistinct(versions: seq<Version>) {
    forall i, j :: 0 <= i < j < |versions| ==> versions[i].revision != versions[j].revision
  }

  ghost predicate Valid(t: Tables) {
    && TurnsUnique(t.sets) && SetIdsDistinct(t.sets)
    && (forall c :: c in t.sets ==> c.stateRevision >= 1)
    && (forall c :: c in t.sets && c.applied.Some? ==> HasRevision(t.revisions, c.applied.value))
    && (forall i, j :: 0 <= i < j < |t.attempts| ==> t.attempts[i].turn != t.attempts[j].turn)
    && (forall a :: a in t.attempts ==> AttemptOk(a) && References(t, a))
    && EventsDistinct(t.audits) && VersionsDistinct(t.versions)
    && (forall s :: s in t.sessions ==> s.stateRevision >= 1)
  }

  /******* Which change set a commit points to *******/

  predicate OfTurn(c: ChangeSet, a: Attempt) {
    c.document == a.document && c.turn == Some(a.turn)
  }

  predicate FirstAt(sets: seq<ChangeSet>, a: Attempt, i: nat) {
    i < |sets| && OfTurn(sets[i], a) && forall j :: 0 <= j < i ==> !OfTurn(sets[j], a)
  }

  /** The scalar subquery returns a row exactly when no earlier row has its document and turn. */
  lemma FirstOfIff(sets: seq<ChangeSet>, a: Attempt, i: nat)
    requires i < |sets|
    ensures FirstAt(sets, a, i) ==> FirstOf(sets, a) == Some(sets[i])
    ensures FirstOf(sets, a) == Some(sets[i]) ==> exists j: nat :: FirstAt(sets, a, j) && sets[j] == sets[i]
    decreases |sets|
  {
    if OfTurn(sets[0], a) {
      if FirstOf(sets, a) == Some(sets[i]) { assert FirstAt(sets, a, 0); }
    } else if i > 0 {
      FirstOfIff(sets[1..], a, i - 1);
      assert forall j :: 0 < j < |sets| ==> sets[j] == sets[1..][j - 1];
      if FirstAt(sets, a, i) { assert FirstAt(sets[1..], a, i - 1); }
      if FirstOf(sets, a) == Some(sets[i]) {
        var j: nat :| FirstAt(sets[1..], a, j) && sets[1..][j] == sets[i];
        assert FirstAt(sets, a, j + 1);
      }
    } else if FirstOf(sets, a).Some? {
      FirstOfTurn(sets, a);
    }
  }

  lemma FirstOfTurn(sets: seq<ChangeSet>, a: Attempt)
    ensures FirstOf(sets, a).Some? ==> OfTurn(FirstOf(sets, a).value, a)
  {
  }

  lemma UniqueTurnFindsIt(sets: seq<ChangeSet>, a: Attempt, c: ChangeSet)
    requires TurnsUnique(sets) && c in sets && Owns(c, a)
    ensures FirstOf(sets, a) == Some(c)
    ensures forall d :: d in sets && d.turn == Some(a.turn) ==> d == c
  {
    var i :| 0 <= i < |sets| && sets[i] == c;
    assert FirstAt(sets, a, i);
    FirstOfIff(sets, a, i);
  }

  /**
   Every attempt the migration marks applied points to the one change set of its document
   and turn, and to an existing revision with the right parent, origin, artifact and hash.
   */
  lemma AppliedIsBacked(t: Tables, clock: Clock, i: nat)
    requires Valid(t) && i < |t.attempts|
    requires t.attempts[i].status != AppliedAttempt
    requires Retired(t, clock).attempts[i].status == AppliedAttempt
    ensures exists c, r ::
      c in t.sets && r in t.revisions && Backs(t, c, r, t.attempts[i], Retired(t, clock).attempts[i])
  {
    var a := t.attempts[i];
    assert Verified(t, a);
    var c, r :| c in t.sets && r in t.revisions && Legacy(t.audits, c) && Owns(c, a) && Commits(c, r, a);
    UniqueTurnFindsIt(t.sets, a, c);
    assert Backs(t, c, r, a, Retired(t, clock).attempts[i]);
  }

  ghost predicate Backs(t: Tables, c: ChangeSet, r: Revision, before: Attempt, after: Attempt) {
    && after.changeSet == Some(c.id) && after.revision == Some(r.id) && after.failureCode == None
    && Legacy(t.audits, c) && c.document == before.document && c.turn == Some(before.turn)
    && (forall d :: d in t.sets && d.turn == Some(before.turn) ==> d == c)
    && r.document == before.document && r.parent == Some(before.base) && r.changeSet == Some(c.id)
    && c.candidate == Some(r.artifact) && c.candidateSha == Some(r.sha)
    && (before.candidate.Some? ==> before.candidate == Some(r.artifact) && before.candidateSha == Some(r.sha))
  }

  /** In general a commit passes the CHECK exactly when the first row of the turn has a revision. */
  lemma CommitPassesCheckIff(t: Tables, clock: Clock, a: Attempt)
    requires AttemptOk(a) && (a.status == Reserved || a.status == Ambiguous) && Verified(t, a)
    ensures FirstOf(t.sets, a).Some?
    ensures AttemptOk(RetiredAttempt(t, a, clock)) <==> FirstOf(t.sets, a).value.applied.Some?
  {
    var c, r :| c in t.sets && r in t.revisions && Legacy(t.audits, c) && Owns(c, a) && Commits(c, r, a);
    FirstOfExists(t.sets, a, c);
  }

  lemma FirstOfExists(sets: seq<ChangeSet>, a: Attempt, c: ChangeSet)
    requires c in sets && OfTurn(c, a)
    ensures FirstOf(sets, a).Some?
  {
    if !OfTurn(sets[0], a) {
      FirstOfExists(sets[1..], a, c);
    }
  }

  /** Without the unique index a commit can be filed under another change set, against the CHECK. */
  lemma CommitNeedsUniqueTurn() returns (t: Tables, clock: Clock)
    ensures SetIdsDistinct(t.sets) && !TurnsUnique(t.sets)
    ensures forall a :: a in t.attempts ==> AttemptOk(a)
    ensures |t.attempts| == 1 && Retired(t, clock).attempts[0].status == AppliedAttempt
    ensures !AttemptOk(Retired(t, clock).attempts[0])
  {
    var other := ChangeSet("x", "d", "b", Some("t"), Draft, None, None, None, 1, 0, "");
    var own := ChangeSet("y", "d", "b", Some("t"), Applied, Some("a"), Some("h"), Some("r"), 1, 0, "");
    var rev := Revision("r", "d", Some("b"), Some("y"), "a", "h");
    var att := Attempt("m", "d", "t", "b", Reserved, None, None, None, None, None, 1, 0, "");
    var aud := Audit("e", "d", Created, Some("y"), true, 0);
    t := Tables([other, own], [att], [rev], [aud], [], [], [], [], []);
    clock := Clock(0, 0, 0, 0, 0, 0);
    assert aud in t.audits && Legacy(t.audits, own);
    assert own in t.sets && rev in t.revisions && Owns(own, att) && Commits(own, rev, att);
    assert Verified(t, att);
    assert FirstOf(t.sets, att) == Some(other);
    assert "x"[0] != "y"[0];
    assert t.sets[0].turn == t.sets[1].turn;
  }

  /******* The constraints survive *******/

  lemma AnnounceKeepsDistinct(audits: seq<Audit>, sets: seq<ChangeSet>, now: int)
    requires EventsDistinct(audits)
    ensures EventsDistinct(Announced(audits, sets, now))
    decreases |sets|
  {
    if sets != [] {
      AnnounceKeepsDistinct(Announce(audits, sets[0], now), sets[1..], now);
    }
  }

  lemma RecordedForKeepsDistinct(versions: seq<Version>, w: Working, sources: seq<Source>)
    requires VersionsDistinct(versions)
    ensures VersionsDistinct(RecordedFor(versions, w, sources))
    decreases |sources|
  {
    if sources != [] {
      RecordedForKeepsDistinct(RecordVersion(versions, w, sources[0]), w, sources[1..]);
    }
  }

  lemma RecordedKeepsDistinct(versions: seq<Version>, working: seq<Working>, sources: seq<Source>)
    requires VersionsDistinct(versions)
    ensures VersionsDistinct(Recorded(versions, working, sources))
    decreases |working|
  {
    if working != [] {
      RecordedForKeepsDistinct(versions, working[0], sources);
      RecordedKeepsDistinct(RecordedFor(versions, working[0], sources), working[1..], sources);
    }
  }

  lemma SetsKeepIdentity(t: Tables, clock: Clock, i: nat)
    requires i < |t.sets|
    ensures var c, d := t.sets[i], Retired(t, clock).sets[i];
      d.id == c.id && d.document == c.document && d.base == c.base && d.turn == c.turn && d.applied == c.applied
  {
  }

  lemma AttemptStaysOk(t: Tables, clock: Clock, a: Attempt)
    requires Valid(t) && a in t.attempts
    ensures AttemptOk(RetiredAttempt(t, a, clock)) && References(t, RetiredAttempt(t, a, clock))
    ensures RetiredAttempt(t, a, clock).turn == a.turn
  {
    if (a.status == Reserved || a.status == Ambiguous) && Verified(t, a) {
      var c, r :| c in t.sets && r in t.revisions && Legacy(t.audits, c) && Owns(c, a) && Commits(c, r, a);
      UniqueTurnFindsIt(t.sets, a, c);
    }
  }

  /** Every constraint of V037 and V039 that held before holds afterwards. */
  lemma ConstraintsSurvive(t: Tables, clock: Clock)
    requires Valid(t)
    ensures Valid(Retired(t, clock))
  {
    hide Legacy, Verified, Doomed, Announced, Recorded, AttemptOk;
    var u := Retired(t, clock);
    forall i | 0 <= i < |t.sets|
      ensures u.sets[i].id == t.sets[i].id && u.sets[i].turn == t.sets[i].turn && u.sets[i].applied == t.sets[i].applied
      ensures u.sets[i].stateRevision >= 1
    {
      assert t.sets[i] in t.sets;
    }
    forall id | HasSet(t.sets, id) ensures HasSet(u.sets, id) {
      var c :| c in t.sets && c.id == id;
      var i :| 0 <= i < |t.sets| && t.sets[i] == c;
      assert u.sets[i] in u.sets;
    }
    forall c | c in u.sets && c.applied.Some? ensures HasRevision(u.revisions, c.applied.value) {
      var i :| 0 <= i < |u.sets| && u.sets[i] == c;
      assert t.sets[i] in t.sets;
    }
    forall i | 0 <= i < |t.attempts|
      ensures AttemptOk(u.attempts[i]) && References(u, u.attempts[i]) && u.attempts[i].turn == t.attempts[i].turn
    {
      assert t.attempts[i] in t.attempts;
      AttemptStaysOk(t, clock, t.attempts[i]);
    }
    forall i | 0 <= i < |t.sessions| ensures u.sessions[i].stateRevision >= 1 {
      assert t.sessions[i] in t.sessions;
    }
    AnnounceKeepsDistinct(t.audits, t.sets, clock.audit);
    RecordedKeepsDistinct(t.versions, t.working, t.sources);
  }

  /******* One pass settles everything *******/

  lemma LegacyAfter(t: Tables, clock: Clock, i: nat)
    requires i < |t.sets|
    ensures Legacy(Retired(t, clock).audits, Retired(t, clock).sets[i]) <==> Legacy(t.audits, t.sets[i])
  {
    AnnouncedKeepsLegacy(t.audits, t.sets, clock.audit, t.sets[i]);
    LegacyByIdentity(Retired(t, clock).audits, t.sets[i], Retired(t, clock).sets[i]);
  }

  lemma VerifiedAfter(t: Tables, clock: Clock, a: Attempt)
    requires Verified(Retired(t, clock), a)
    ensures Verified(t, a)
  {
    var u := Retired(t, clock);
    var c, r :| c in u.sets && r in u.revisions && Legacy(u.audits, c) && Owns(c, a) && Commits(c, r, a);
    var i :| 0 <= i < |u.sets| && u.sets[i] == c;
    LegacyAfter(t, clock, i);
    assert t.sets[i] == c && t.sets[i] in t.sets;
  }

  lemma DoomedAfter(t: Tables, clock: Clock, a: Attempt)
    requires Doomed(Retired(t, clock), a)
    ensures Doomed(t, a)
  {
    var u := Retired(t, clock);
    var c :| c in u.sets && Legacy(u.audits, c) && Owns(c, a) && (Dead(c.status) || Unsettled(c.status));
    var i :| 0 <= i < |u.sets| && u.sets[i] == c;
    LegacyAfter(t, clock, i);
    assert t.sets[i] in t.sets;
  }

  lemma AttemptSettles(t: Tables, clock: Clock, i: nat)
    requires i < |t.attempts|
    ensures var u := Retired(t, clock);
      var a := u.attempts[i];
      a.status == Reserved || a.status == Ambiguous ==> !Verified(u, a) && (a.status == Reserved ==> !Doomed(u, a))
  {
    hide Verified, Doomed, Announced, Recorded;
    var u := Retired(t, clock);
    var a := u.attempts[i];
    if Verified(u, a) { VerifiedAfter(t, clock, a); }
    if Doomed(u, a) { DoomedAfter(t, clock, a); }
  }

  /** No legacy change set is left open, and no attempt is left waiting on a dead one. */
  lemma OnePassSettles(t: Tables, clock: Clock)
    ensures forall c :: c in Retired(t, clock).sets && Legacy(Retired(t, clock).audits, c) ==> !Unsettled(c.status)
    ensures forall a :: a in Retired(t, clock).attempts && a.status == Reserved ==>
      !Doomed(Retired(t, clock), a) && !Verified(Retired(t, clock), a)
    ensures forall a :: a in Retired(t, clock).attempts && a.status == Ambiguous ==> !Verified(Retired(t, clock), a)
    ensures forall s :: s in Retired(t, clock).sessions ==> s.status != Active
    ensures forall l :: l in Retired(t, clock).leases ==> l.expiresAt <= 0
  {
    hide Verified, Doomed, Legacy, Announced, Recorded;
    var u := Retired(t, clock);
    forall c | c in u.sets && Legacy(u.audits, c) ensures !Unsettled(c.status) {
      var i :| 0 <= i < |u.sets| && u.sets[i] == c;
      LegacyAfter(t, clock, i);
    }
    forall a | a in u.attempts && (a.status == Reserved || a.status == Ambiguous)
      ensures !Verified(u, a) && (a.status == Reserved ==> !Doomed(u, a))
    {
      var i :| 0 <= i < |u.attempts| && u.attempts[i] == a;
      AttemptSettles(t, clock, i);
    }
  }

  /** A verified commit is never reported as failed. */
  lemma VerifiedNeverFails(t: Tables, clock: Clock, i: nat)
    requires i < |t.attempts| && Verified(t, t.attempts[i]) && t.attempts[i].status != FailedAttempt
    ensures Retired(t, clock).attempts[i].status == AppliedAttempt
  {
  }

  predicate LegacyAttempt(t: Tables, a: Attempt) {
    exists c :: c in t.sets && Owns(c, a) && Legacy(t.audits, c)
  }

  /** Rows that do not belong to a legacy change set keep every column. */
  lemma OthersUntouched(t: Tables, clock: Clock)
    ensures forall i :: 0 <= i < |t.sets| && !Legacy(t.audits, t.sets[i]) ==> Retired(t, clock).sets[i] == t.sets[i]
    ensures forall i :: 0 <= i < |t.attempts| && !LegacyAttempt(t, t.attempts[i]) ==>
      Retired(t, clock).attempts[i] == t.attempts[i]
    ensures Retired(t, clock).revisions == t.revisions
    ensures t.audits <= Retired(t, clock).audits && t.versions <= Retired(t, clock).versions
  {
    AnnouncedExtends(t.audits, t.sets, clock.audit);
    RecordedExtends(t.versions, t.working, t.sources);
  }

  lemma AnnouncedExtends(audits: seq<Audit>, sets: seq<ChangeSet>, now: int)
    ensures audits <= Announced(audits, sets, now)
    decreases |sets|
  {
    if sets != [] { AnnouncedExtends(Announce(audits, sets[0], now), sets[1..], now); }
  }

  lemma RecordedForExtends(versions: seq<Version>, w: Working, sources: seq<Source>)
    ensures versions <= RecordedFor(versions, w, sources)
    decreases |sources|
  {
    if sources != [] { RecordedForExtends(RecordVersion(versions, w, sources[0]), w, sources[1..]); }
  }

  lemma RecordedExtends(versions: seq<Version>, working: seq<Working>, sources: seq<Source>)
    ensures versions <= Recorded(versions, working, sources)
    decreases |working|
  {
    if working != [] {
      RecordedForExtends(versions, working[0], sources);
      RecordedExtends(RecordedFor(versions, working[0], sources), working[1..], sources);
    }
  }

  /** A row's revision counter moves by one exactly when its status moves, and never twice. */
  lemma RevisionsCountTransitions(t: Tables, clock: Clock)
    ensures forall i :: 0 <= i < |t.attempts| ==>
      var a, b := t.attempts[i], Retired(t, clock).attempts[i];
      if a.status == b.status then b == a else b.stateRevision == a.stateRevision + 1 && b.updatedAt >= a.updatedAt
    ensures forall i :: 0 <= i < |t.sets| ==>
      var c, d := t.sets[i], Retired(t, clock).sets[i];
      if c.status == d.status then d == c else d.stateRevision == c.stateRevision + 1 && d.updatedAt >= c.updatedAt
  {
  }

  lemma FailedSetDooms(t: Tables, now: int, a: Attempt, i: nat)
    requires i < |t.sets|
    ensures Dooms(t.audits, SetsFailed(t, now).sets[i], a, false) <==> Dooms(t.audits, t.sets[i], a, true)
  {
    LegacyByIdentity(t.audits, t.sets[i], SetsFailed(t, now).sets[i]);
  }

  lemma SetsFailedStrands(t: Tables, now: int, a: Attempt)
    ensures Stranded(SetsFailed(t, now), a) <==> Doomed(t, a)
  {
    hide Legacy, Owns, FailSet;
    var u := SetsFailed(t, now);
    forall i | 0 <= i < |t.sets| ensures Dooms(t.audits, u.sets[i], a, false) <==> Dooms(t.audits, t.sets[i], a, true) {
      FailedSetDooms(t, now, a, i);
    }
    if Doomed(t, a) {
      var c :| c in t.sets && Legacy(t.audits, c) && Owns(c, a) && (Dead(c.status) || Unsettled(c.status));
      var i :| 0 <= i < |t.sets| && t.sets[i] == c;
      assert Dooms(u.audits, u.sets[i], a, false) && u.sets[i] in u.sets;
    }
    if Stranded(u, a) {
      var c :| c in u.sets && Legacy(u.audits, c) && Owns(c, a) && Dead(c.status);
      var i :| 0 <= i < |u.sets| && u.sets[i] == c;
      assert Dooms(t.audits, t.sets[i], a, true) && t.sets[i] in t.sets;
    }
  }

  /**
   The order of the two failing statements matters. In the migration's order a reserved attempt
   is never left on a dead change set. With the attempts first, one is left there exactly when
   its legacy change sets were still open and none was dead.
   */
  lemma OrderMatters(t: Tables, clock: Clock, i: nat)
    requires i < |t.attempts|
    ensures var right := AttemptsFailed(SetsFailed(t, clock.sets), clock.attempts);
      !(right.attempts[i].status == Reserved && Stranded(right, right.attempts[i]))
    ensures var wrong := SetsFailed(AttemptsFailed(t, clock.attempts), clock.sets);
      (wrong.attempts[i].status == Reserved && Stranded(wrong, wrong.attempts[i])) <==>
      (t.attempts[i].status == Reserved && Doomed(t, t.attempts[i]) && !Stranded(t, t.attempts[i]))
  {
    var a := t.attempts[i];
    var s := SetsFailed(t, clock.sets);
    assert forall b :: Stranded(AttemptsFailed(s, clock.attempts), b) <==> Stranded(s, b);
    var f := AttemptsFailed(t, clock.attempts);
    SetsFailedStrands(f, clock.sets, a);
    assert Doomed(f, a) <==> Doomed(t, a);
  }

  /** One open legacy change set with one reserved attempt is such a state. */
  lemma WrongOrderLeavesOneBehind(clock: Clock) returns (t: Tables)
    ensures |t.attempts| == 1 && t.attempts[0].status == Reserved
    ensures Retired(t, clock).attempts[0].status == FailedAttempt
    ensures var wrong := SetsFailed(AttemptsFailed(t, clock.attempts), clock.sets);
      wrong.attempts[0] == t.attempts[0] && Stranded(wrong, t.attempts[0])
  {
    var c := ChangeSet("c", "d", "b", Some("t"), Draft, None, None, None, 1, 0, "");
    var a := Attempt("a", "d", "t", "b", Reserved, None, None, None, None, None, 1, 0, "");
    var e := Audit("e", "d", Created, Some("c"), true, 0);
    t := Tables([c], [a], [], [e], [], [], [], [], []);
    assert e in t.audits && Legacy(t.audits, c);
    assert c in t.sets && Owns(c, a) && Doomed(t, a);
    assert !Stranded(t, a) && !Verified(t, a);
    OrderMatters(t, clock, 0);
  }

  /******* A second run changes nothing *******/

  lemma AnnouncedCovers(audits: seq<Audit>, sets: seq<ChangeSet>, now: int, c: ChangeSet)
    requires c in sets && Legacy(audits, c)
    ensures HasEvent(Announced(audits, sets, now), RetiredEvent(c, now).eventId)
    decreases |sets|
  {
    var next := Announce(audits, sets[0], now);
    if c == sets[0] {
      assert HasEvent(next, RetiredEvent(c, now).eventId) by {
        if !HasEvent(audits, RetiredEvent(c, now).eventId) {
          assert next[|audits|] == RetiredEvent(c, now);
        } else {
          var a :| a in audits && a.eventId == RetiredEvent(c, now).eventId;
          assert a in next;
        }
      }
      AnnouncedExtends(next, sets[1..], now);
      var a :| a in next && a.eventId == RetiredEvent(c, now).eventId;
      assert a in Announced(next, sets[1..], now);
    } else {
      AnnounceKeepsLegacy(audits, sets[0], now, c);
      AnnouncedCovers(next, sets[1..], now, c);
    }
  }

  lemma NothingToAnnounce(audits: seq<Audit>, sets: seq<ChangeSet>, now: int)
    requires forall c :: c in sets && Legacy(audits, c) ==> HasEvent(audits, RetiredEvent(c, now).eventId)
    ensures Announced(audits, sets, now) == audits
    decreases |sets|
  {
    if sets != [] {
      assert sets[0] in sets;
      NothingToAnnounce(audits, sets[1..], now);
    }
  }

  lemma RecordedForCovers(versions: seq<Version>, w: Working, sources: seq<Source>)
    requires exists s :: s in sources && s.document == w.document
    ensures HasVersion(RecordedFor(versions, w, sources), w.base)
    decreases |sources|
  {
    var next := RecordVersion(versions, w, sources[0]);
    if sources[0].document == w.document {
      assert HasVersion(next, w.base) by {
        if !HasVersion(versions, w.base) { assert next[|versions|].revision == w.base; }
      }
      RecordedForExtends(next, w, sources[1..]);
      var v :| v in next && v.revision == w.base;
      assert v in RecordedFor(next, w, sources[1..]);
    } else {
      RecordedForCovers(next, w, sources[1..]);
    }
  }

  lemma RecordedCovers(versions: seq<Version>, working: seq<Working>, sources: seq<Source>, w: Working)
    requires w in working && exists s :: s in sources && s.document == w.document
    ensures HasVersion(Recorded(versions, working, sources), w.base)
    decreases |working|
  {
    var next := RecordedFor(versions, working[0], sources);
    if w == working[0] {
      RecordedForCovers(versions, w, sources);
      RecordedExtends(next, working[1..], sources);
      var v :| v in next && v.revision == w.base;
      assert v in Recorded(next, working[1..], sources);
    } else {
      RecordedCovers(next, working[1..], sources, w);
    }
  }

  lemma NothingToRecordFor(versions: seq<Version>, w: Working, sources: seq<Source>)
    requires (exists s :: s in sources && s.document == w.document) ==> HasVersion(versions, w.base)
    ensures RecordedFor(versions, w, sources) == versions
    decreases |sources|
  {
    if sources != [] {
      assert sources[0] in sources;
      NothingToRecordFor(versions, w, sources[1..]);
    }
  }

  lemma NothingToRecord(versions: seq<Version>, working: seq<Working>, sources: seq<Source>)
    requires forall w :: w in working && (exists s :: s in sources && s.document == w.document) ==>
      HasVersion(versions, w.base)
    ensures Recorded(versions, working, sources) == versions
    decreases |working|
  {
    if working != [] {
      assert working[0] in working;
      NothingToRecordFor(versions, working[0], sources);
      NothingToRecord(versions, working[1..], sources);
    }
  }

  /** Running the migration again, at any later clock and on any state, changes no row. */
  lemma RetirementIsIdempotent(t: Tables, first: Clock, second: Clock)
    ensures Retired(Retired(t, first), second) == Retired(t, first)
  {
    var u := Retired(t, first);
    var w := Retired(u, second);
    OnePassSettles(t, first);
    forall i | 0 <= i < |u.sets| ensures w.sets[i] == u.sets[i] {
      assert u.sets[i] in u.sets;
    }
    assert w.sets == u.sets;
    forall i | 0 <= i < |u.attempts| ensures w.attempts[i] == u.attempts[i] {
      assert u.attempts[i] in u.attempts;
    }
    assert w.attempts == u.attempts;
    forall i | 0 <= i < |u.sessions| ensures w.sessions[i] == u.sessions[i] {
      assert u.sessions[i] in u.sessions;
    }
    assert w.sessions == u.sessions;
    forall i | 0 <= i < |u.leases| ensures w.leases[i] == u.leases[i] {
      assert u.leases[i] in u.leases;
    }
    assert w.leases == u.leases;
    SecondAnnouncement(t, first, second);
    forall x | x in u.working && (exists s :: s in u.sources && s.document == x.document)
      ensures HasVersion(u.versions, x.base)
    {
      RecordedCovers(t.versions, t.working, t.sources, x);
    }
    NothingToRecord(u.versions, u.working, u.sources);
  }

  lemma SecondAnnouncement(t: Tables, first: Clock, second: Clock)
    ensures Announced(Retired(t, first).audits, Retired(t, first).sets, second.audit) == Retired(t, first).audits
  {
    var u := Retired(t, first);
    forall c | c in u.sets && Legacy(u.audits, c)
      ensures HasEvent(u.audits, RetiredEvent(c, second.audit).eventId)
    {
      var i :| 0 <= i < |u.sets| && u.sets[i] == c;
      LegacyAfter(t, first, i);
      SetsKeepIdentity(t, first, i);
      AnnouncedCovers(t.audits, t.sets, first.audit, t.sets[i]);
    }
    NothingToAnnounce(u.audits, u.sets, second.audit);
  }
}
