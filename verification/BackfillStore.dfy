/**
 The write half of the activity backfill: one guarded update of one task row. A refusal changes
 nothing, a success changes one key of one row, and without `--replace` the first snapshot a
 task gets is the one it keeps.
 */
module BackfillStore {
  import opened Common
  import opened Utf16
  import opened BackfillEvents

  /** The details column: NULL, a JSON object, or text that is neither. */
  datatype Details = NoDetails | Details(fields: Fields) | Unreadable

  /** `terminal`: the lower-cased status is one of the five terminal ones. */
  datatype Task = Task(taskId: Text, sessionKey: Text, terminal: bool, details: Details, rest: Text)

  datatype Refusal =
    | NoDatabase | NoBackupPath | BackupExists
    | TaskNotFound | NotTerminal | BadDetails | DifferentSnapshot | NotOneRow
    | ReadbackMismatch

  /** `Unconfirmed`: the write is committed, but reading it back failed. */
  datatype Outcome = DryRun(existing: bool) | Applied | Failed(refusal: Refusal) | Unconfirmed(refusal: Refusal)

  datatype Request = Request(taskId: Text, sessionKey: Text, snapshot: Fields, replace: bool)

  predicate Wanted(t: Task, q: Request) {
    t.taskId == q.taskId && t.sessionKey == q.sessionKey
  }

  /** The row `fetchone` returns. */
  function First(rows: seq<Task>, q: Request): (i: Option<nat>)
    ensures i.Some? ==> i.value < |rows| && Wanted(rows[i.value], q)
    ensures i.Some? ==> forall j :: 0 <= j < i.value ==> !Wanted(rows[j], q)
    ensures i.None? ==> forall j :: 0 <= j < |rows| ==> !Wanted(rows[j], q)
  {
    if rows == [] then None
    else if Wanted(rows[0], q) then Some(0)
    else
      var i := First(rows[1..], q);
      assert forall j :: 0 < j < |rows| ==> rows[1..][j - 1] == rows[j];
      if i.None? then None else Some(i.value + 1)
  }

  function FieldsOf(d: Details): Fields
    requires !d.Unreadable?
  {
    if d.NoDetails? then map[] else d.fields
  }

  /** Why the task cannot be read, if it cannot. */
  function Unread(rows: seq<Task>, q: Request): Option<Refusal> {
    if First(rows, q).None? then Some(TaskNotFound)
    else
      var t := rows[First(rows, q).value];
      if !t.terminal then Some(NotTerminal)
      else if t.details.Unreadable? then Some(BadDetails)
      else None
  }

  function DetailsOf(rows: seq<Task>, q: Request): Fields
    requires Unread(rows, q).None?
  {
    FieldsOf(rows[First(rows, q).value].details)
  }

  /** The number Python sees: true and 1 and 1.0 are one value. */
  function NumberOf(j: Json): Option<real> {
    match j
    case Num(n) => Some(n as real)
    case Bool(b) => Some(if b then 1.0 else 0.0)
    case Fraction(x) => Some(x)
    case _ => None
  }

  /** Python's `==` on decoded documents. */
  predicate SameValue(a: Json, b: Json)
    decreases a
  {
    match a
    case Null => b.Null?
    case Str(t) => b == a
    case List(xs) =>
      b.List? && |xs| == |b.items| && forall i :: 0 <= i < |xs| ==> SameValue(xs[i], b.items[i])
    case Obj(m) =>
      b.Obj? && m.Keys == b.fields.Keys && forall k :: k in m ==> SameValue(m[k], b.fields[k])
    case _ => NumberOf(b) == NumberOf(a)
  }

  lemma {:induction false} SameReflexive(a: Json)
    ensures SameValue(a, a)
    decreases a
  {
    match a
    case List(xs) =>
      forall i | 0 <= i < |xs| ensures SameValue(xs[i], xs[i]) { SameReflexive(xs[i]); }
    case Obj(m) =>
      forall k | k in m ensures SameValue(m[k], m[k]) { SameReflexive(m[k]); }
    case _ =>
  }

  lemma {:induction false} SameTransitive(a: Json, b: Json, c: Json)
    requires SameValue(a, b) && SameValue(b, c)
    ensures SameValue(a, c)
    decreases a
  {
    match a
    case List(xs) =>
      forall i | 0 <= i < |xs| ensures SameValue(xs[i], c.items[i]) { SameTransitive(xs[i], b.items[i], c.items[i]); }
    case Obj(m) =>
      forall k | k in m ensures SameValue(m[k], c.fields[k]) { SameTransitive(m[k], b.fields[k], c.fields[k]); }
    case _ =>
  }

  /** A snapshot that the request may not overwrite. */
  predicate Keeps(existing: Json, q: Request) {
    existing.Obj? && !SameValue(existing, Obj(q.snapshot)) && !q.replace
  }

  function Count(rows: seq<Task>, q: Request): nat {
    if rows == [] then 0 else (if Wanted(rows[0], q) then 1 else 0) + Count(rows[1..], q)
  }

  /** What the transaction decides. */
  function Verdict(rows: seq<Task>, q: Request): Option<Refusal> {
    if Unread(rows, q).Some? then Unread(rows, q)
    else if Keeps(Get(DetailsOf(rows, q), ActivitySnapshotKey), q) then Some(DifferentSnapshot)
    else if Count(rows, q) != 1 then Some(NotOneRow)
    else None
  }

  function Written(rows: seq<Task>, q: Request): seq<Task>
    requires Unread(rows, q).None?
  {
    var i := First(rows, q).value;
    rows[i := rows[i].(details := Details(DetailsOf(rows, q)[ActivitySnapshotKey := Obj(q.snapshot)]))]
  }

  function Committed(rows: seq<Task>, q: Request): seq<Task> {
    if Verdict(rows, q).None? then Written(rows, q) else rows
  }

  lemma {:induction false} CountIsOne(rows: seq<Task>, q: Request, i: nat)
    requires i < |rows| && Wanted(rows[i], q)
    ensures Count(rows, q) == 1 <==> forall j :: 0 <= j < |rows| && j != i ==> !Wanted(rows[j], q)
  {
    if i == 0 {
      CountIsZero(rows[1..], q);
      assert forall j :: 0 < j < |rows| ==> rows[1..][j - 1] == rows[j];
    } else {
      CountIsOne(rows[1..], q, i - 1);
      CountIsZero(rows[1..], q);
      assert forall j :: 0 < j < |rows| ==> rows[1..][j - 1] == rows[j];
      assert rows[1..][i - 1] == rows[i];
    }
  }

  lemma {:induction false} CountIsZero(rows: seq<Task>, q: Request)
    ensures Count(rows, q) == 0 <==> forall j :: 0 <= j < |rows| ==> !Wanted(rows[j], q)
  {
    if rows != [] {
      CountIsZero(rows[1..], q);
      assert forall j :: 0 < j < |rows| ==> rows[1..][j - 1] == rows[j];
    }
  }

  class Database {
    var rows: seq<Task>
    var present: bool
    var backup: Option<seq<Task>>

    constructor (rows: seq<Task>, present: bool, backup: Option<seq<Task>>)
      ensures this.rows == rows && this.present == present && this.backup == backup
    {
      this.rows, this.present, this.backup := rows, present, backup;
    }

    /** UPDATE agent_tasks SET details = ? WHERE task_id = ? AND session_key = ? */
    static method Update(rows: seq<Task>, q: Request, details: Details) returns (updated: seq<Task>, count: nat)
      ensures |updated| == |rows| && count == Count(rows, q)
      ensures forall j :: 0 <= j < |rows| ==>
        updated[j] == if Wanted(rows[j], q) then rows[j].(details := details) else rows[j]
    {
      updated, count := rows, 0;
      var j := |rows|;
      while j > 0
        invariant 0 <= j <= |rows| == |updated|
        invariant count == Count(rows[j..], q)
        invariant forall k :: 0 <= k < j ==> updated[k] == rows[k]
        invariant forall k :: j <= k < |rows| ==>
          updated[k] == if Wanted(rows[k], q) then rows[k].(details := details) else rows[k]
      {
        j := j - 1;
        assert rows[j..][1..] == rows[j + 1..];
        if Wanted(rows[j], q) {
          updated, count := updated[j := rows[j].(details := details)], count + 1;
        }
      }
      assert rows[0..] == rows;
    }

    /** The transaction: either everything of it is committed or nothing is. */
    method Transact(q: Request) returns (refusal: Option<Refusal>)
      modifies this`rows
      ensures refusal == Verdict(old(rows), q)
      ensures rows == Committed(old(rows), q)
    {
      refusal := Unread(rows, q);
      if refusal.Some? {
        return;
      }
      if Keeps(Get(DetailsOf(rows, q), ActivitySnapshotKey), q) {
        return Some(DifferentSnapshot);
      }
      var details := Details(DetailsOf(rows, q)[ActivitySnapshotKey := Obj(q.snapshot)]);
      var updated, count := Update(rows, q, details);
      if count != 1 {
        return Some(NotOneRow);
      }
      CountIsOne(rows, q, First(rows, q).value);
      assert updated == Written(rows, q);
      rows := updated;
    }

    /**
     The whole command. `others` is what other writers commit between our commit and our
     readback, `normal` the snapshot normaliser, `digest` the hash of a document.
     */
    method Backfill(q: Request, apply: bool, backupPath: bool, others: seq<Task> -> seq<Task>,
                    normal: Json -> Option<Json>, digest: Json -> Text) returns (r: Outcome)
      modifies this
      ensures present == old(present)
      ensures r.DryRun? || r.Failed? ==> rows == old(rows)
      ensures r.Unconfirmed? ==> r.refusal == if Unread(rows, q).Some? then Unread(rows, q).value else ReadbackMismatch
      ensures r.Applied? || r.Unconfirmed? ==>
        Verdict(old(rows), q).None? && rows == others(Written(old(rows), q)) && backup == Some(old(rows))
      ensures r.Applied? || r.Unconfirmed? ==> (r.Applied? <==> ReadsBack(rows, q, normal, digest))
      ensures old(present) && apply && backupPath && old(backup).None? && Verdict(old(rows), q).Some? ==>
        r == Failed(Verdict(old(rows), q).value)
      ensures old(present) && apply && backupPath && old(backup).None? && Verdict(old(rows), q).None? ==>
        r.Applied? || r.Unconfirmed?
      ensures !old(present) ==> r == Failed(NoDatabase)
      ensures old(present) && !apply ==>
        r == if Unread(old(rows), q).Some? then Failed(Unread(old(rows), q).value)
             else DryRun(Get(DetailsOf(old(rows), q), ActivitySnapshotKey).Obj?)
      ensures old(present) && apply && !backupPath ==> r == Failed(NoBackupPath)
      ensures old(present) && apply && backupPath && old(backup).Some? ==> r == Failed(BackupExists)
      ensures backup ==
        if old(present) && apply && backupPath && old(backup).None? then Some(old(rows)) else old(backup)
    {
      hide Written, Count, Keeps, First, FieldsOf, Wanted;
      if !present {
        return Failed(NoDatabase);
      }
      if !apply {
        var unread := Unread(rows, q);
        if unread.Some? {
          return Failed(unread.value);
        }
        return DryRun(Get(DetailsOf(rows, q), ActivitySnapshotKey).Obj?);
      }
      if !backupPath {
        return Failed(NoBackupPath);
      }
      if backup.Some? {
        return Failed(BackupExists);
      }
      backup := Some(rows);
      var refusal := Transact(q);
      if refusal.Some? {
        return Failed(refusal.value);
      }
      WrittenReads(old(rows), q);
      rows := others(rows);
      var unread := Unread(rows, q);
      if unread.Some? {
        return Unconfirmed(unread.value);
      }
      var kept := normal(Get(DetailsOf(rows, q), ActivitySnapshotKey));
      if kept.None? || digest(kept.value) != digest(Obj(q.snapshot)) {
        return Unconfirmed(ReadbackMismatch);
      }
      return Applied;
    }
  }

  /** The rows the readback sees hold a snapshot with the digest of the requested one. */
  predicate ReadsBack(rows: seq<Task>, q: Request, normal: Json -> Option<Json>, digest: Json -> Text) {
    && Unread(rows, q).None?
    && var kept := normal(Get(DetailsOf(rows, q), ActivitySnapshotKey));
      kept.Some? && digest(kept.value) == digest(Obj(q.snapshot))
  }

  /** Without another writer, the readback succeeds exactly when the snapshot survives the normaliser. */
  lemma QuietReadback(rows: seq<Task>, q: Request, normal: Json -> Option<Json>, digest: Json -> Text)
    requires Verdict(rows, q).None?
    ensures ReadsBack(Written(rows, q), q, normal, digest) <==>
      var kept := normal(Obj(q.snapshot)); kept.Some? && digest(kept.value) == digest(Obj(q.snapshot))
  {
    WrittenReads(rows, q);
  }

  /** A writer that takes the task row away right after the commit: the write happened, the command fails. */
  method LosesRace(q: Request, t: Task, normal: Json -> Option<Json>, digest: Json -> Text) returns (r: Outcome)
    requires Wanted(t, q) && t.terminal && t.details == NoDetails
    ensures r == Unconfirmed(TaskNotFound)
  {
    var db := new Database([t], true, None);
    CountIsOne([t], q, 0);
    assert Verdict([t], q).None?;
    r := db.Backfill(q, true, true, rows => [], normal, digest);
  }

  /******* Compare and set *******/

  lemma FirstIsFixed(rows: seq<Task>, updated: seq<Task>, q: Request)
    requires |updated| == |rows|
    requires forall j :: 0 <= j < |rows| ==> (Wanted(updated[j], q) <==> Wanted(rows[j], q))
    ensures First(updated, q) == First(rows, q)
  {
    var i, k := First(rows, q), First(updated, q);
    if i.Some? && k.Some? {
      assert !(i.value < k.value) && !(k.value < i.value);
    }
  }

  /** What was written is what is read back, and every other key, column and row is as it was. */
  lemma WrittenReads(rows: seq<Task>, q: Request)
    requires Verdict(rows, q).None?
    ensures var w, i := Written(rows, q), First(rows, q).value;
      && |w| == |rows| && (forall j :: 0 <= j < |rows| && j != i ==> w[j] == rows[j] && !Wanted(rows[j], q))
      && w[i].(details := rows[i].details) == rows[i]
      && Unread(w, q).None? && First(w, q) == First(rows, q)
      && Get(DetailsOf(w, q), ActivitySnapshotKey) == Obj(q.snapshot)
      && (forall k :: k != ActivitySnapshotKey ==> Get(DetailsOf(w, q), k) == Get(DetailsOf(rows, q), k))
  {
    FirstIsFixed(rows, Written(rows, q), q);
    CountIsOne(rows, q, First(rows, q).value);
  }

  /** Writing the same snapshot again is accepted, with or without `--replace`, and changes nothing. */
  lemma RepeatIsInvisible(rows: seq<Task>, q: Request, again: bool)
    requires Verdict(rows, q).None?
    ensures Verdict(Written(rows, q), q.(replace := again)).None?
    ensures Committed(Written(rows, q), q.(replace := again)) == Written(rows, q)
  {
    var w, p := Written(rows, q), q.(replace := again);
    WrittenReads(rows, q);
    var i := First(rows, q).value;
    SameTarget(w, q, p);
    SameReflexive(Obj(q.snapshot));
    CountIsOne(w, q, i);
    assert Verdict(w, p).None?;
    assert DetailsOf(w, p)[ActivitySnapshotKey := Obj(q.snapshot)] == DetailsOf(w, p);
  }

  lemma {:induction false} SameTarget(rows: seq<Task>, q: Request, p: Request)
    requires p.taskId == q.taskId && p.sessionKey == q.sessionKey
    ensures First(rows, p) == First(rows, q) && Count(rows, p) == Count(rows, q)
  {
    if rows != [] {
      SameTarget(rows[1..], q, p);
    }
  }

  /******* Any run of backfills *******/

  /** The write lock makes transactions of any number of processes follow one another. */
  function After(rows: seq<Task>, qs: seq<Request>): seq<Task>
    decreases |qs|
  {
    if qs == [] then rows else After(Committed(rows, qs[0]), qs[1..])
  }

  predicate Holds(t: Task, snapshot: Json) {
    t.details.Details? && Get(t.details.fields, ActivitySnapshotKey) == snapshot
  }

  /** The same task but for a snapshot that Python cannot tell from the old one. */
  ghost predicate Unchanged(a: Task, b: Task) {
    && a.details.Details? && b.details.Details? && b == a.(details := b.details)
    && ActivitySnapshotKey in a.details.fields && ActivitySnapshotKey in b.details.fields
    && SameValue(a.details.fields[ActivitySnapshotKey], b.details.fields[ActivitySnapshotKey])
    && b.details.fields == a.details.fields[ActivitySnapshotKey := b.details.fields[ActivitySnapshotKey]]
  }

  lemma UnchangedTransitive(a: Task, b: Task, c: Task)
    requires Unchanged(a, b) && Unchanged(b, c)
    ensures Unchanged(a, c)
  {
    SameTransitive(a.details.fields[ActivitySnapshotKey], b.details.fields[ActivitySnapshotKey],
                   c.details.fields[ActivitySnapshotKey]);
  }

  predicate HasSnapshot(t: Task) {
    t.details.Details? && Get(t.details.fields, ActivitySnapshotKey).Obj?
  }

  lemma UnchangedReflexive(t: Task)
    requires HasSnapshot(t)
    ensures Unchanged(t, t)
  {
    SameReflexive(t.details.fields[ActivitySnapshotKey]);
  }

  lemma StepKeepsSnapshot(rows: seq<Task>, q: Request, i: nat)
    requires i < |rows| && HasSnapshot(rows[i]) && !q.replace
    ensures |Committed(rows, q)| == |rows|
    ensures Unchanged(rows[i], Committed(rows, q)[i]) && HasSnapshot(Committed(rows, q)[i])
  {
    UnchangedReflexive(rows[i]);
  }

  /**
   Without `--replace`, a task that holds a snapshot keeps it, and its whole row, for ever. Only
   the spelling of numbers inside the snapshot can change, since the guard compares as Python does.
   */
  lemma {:induction false} FirstSnapshotWins(rows: seq<Task>, qs: seq<Request>, i: nat)
    requires i < |rows| && HasSnapshot(rows[i])
    requires forall k :: 0 <= k < |qs| ==> !qs[k].replace
    ensures |After(rows, qs)| == |rows| && Unchanged(rows[i], After(rows, qs)[i])
    decreases |qs|
  {
    if qs == [] {
      UnchangedReflexive(rows[i]);
    } else {
      var next := Committed(rows, qs[0]);
      StepKeepsSnapshot(rows, qs[0], i);
      FirstSnapshotWins(next, qs[1..], i);
      UnchangedTransitive(rows[i], next[i], After(next, qs[1..])[i]);
    }
  }

  /** Such a change of spelling does happen: 2.0 is overwritten by 2, without `--replace`. */
  lemma SpellingCanChange(t: Task, q: Request, k: Key)
    requires Wanted(t, q) && t.terminal && !q.replace && q.snapshot == map[k := Num(2)]
    requires Holds(t, Obj(map[k := Fraction(2.0)]))
    ensures Verdict([t], q).None? && Holds(Written([t], q)[0], Obj(map[k := Num(2)]))
  {
    CountIsOne([t], q, 0);
    var stored, asked := map[k := Fraction(2.0)], map[k := Num(2)];
    assert SameValue(Obj(stored), Obj(asked)) by {
      assert SameValue(Fraction(2.0), Num(2));
      assert stored.Keys == asked.Keys == {k};
    }
  }
}
