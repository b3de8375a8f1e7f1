/**
 The guarded update seen from outside: which requests are written, what a written row holds, and
 what the guard's comparison of two decoded documents means.
 */
module StoreRaw {
  import opened Common
  import opened Utf16
  import opened BackfillEvents
  import Raw = BackfillRaw
  import opened BackfillStore

  /******* Equal documents *******/

  /** The document with every number and truth value written as a fraction. */
  function Canonical(j: Json): Json
    decreases j
  {
    match j
    case Num(n) => Fraction(n as real)
    case Bool(b) => Fraction(if b then 1.0 else 0.0)
    case List(xs) => List(seq(|xs|, i requires 0 <= i < |xs| => Canonical(xs[i])))
    case Obj(m) => Obj(map k | k in m :: Canonical(m[k]))
    case _ => j
  }

  /** Documents compare equal exactly when they are one document but for the spelling of numbers. */
  lemma {:induction false} SameValueIff(a: Json, b: Json)
    ensures SameValue(a, b) <==> Canonical(a) == Canonical(b)
    decreases a
  {
    if a.List? && b.List? {
      SameListIff(a.items, b.items);
    } else if a.Obj? && b.Obj? {
      SameObjectIff(a.fields, b.fields);
    }
  }

  lemma {:induction false} SameListIff(xs: seq<Json>, ys: seq<Json>)
    ensures SameValue(List(xs), List(ys)) <==> Canonical(List(xs)) == Canonical(List(ys))
    decreases List(xs), 0
  {
    var a, b := Canonical(List(xs)).items, Canonical(List(ys)).items;
    if |xs| == |ys| {
      forall i | 0 <= i < |xs| ensures SameValue(xs[i], ys[i]) <==> a[i] == b[i] {
        SameValueIff(xs[i], ys[i]);
      }
      if SameValue(List(xs), List(ys)) {
        assert a == b;
      }
    } else {
      assert |a| != |b|;
    }
  }

  lemma {:induction false} SameObjectIff(m: Fields, n: Fields)
    ensures SameValue(Obj(m), Obj(n)) <==> Canonical(Obj(m)) == Canonical(Obj(n))
    decreases Obj(m), 0
  {
    var a, b := Canonical(Obj(m)).fields, Canonical(Obj(n)).fields;
    assert a.Keys == m.Keys && b.Keys == n.Keys;
    if m.Keys == n.Keys {
      forall k | k in m ensures SameValue(m[k], n[k]) <==> a[k] == b[k] {
        SameValueIff(m[k], n[k]);
      }
      if SameValue(Obj(m), Obj(n)) {
        assert a == b;
      }
    }
  }

  /******* Which requests are written *******/

  /** Row `i` is the one row with the request's task and session. */
  ghost predicate Target(rows: seq<Task>, q: Request, i: nat) {
    && i < |rows|
    && forall j :: 0 <= j < |rows| ==> (rows[j].taskId == q.taskId && rows[j].sessionKey == q.sessionKey <==> j == i)
  }

  /** The object the details column stands for: NULL is the empty one. */
  ghost predicate Reads(d: Details, f: Fields) {
    d == Details(f) || (d == NoDetails && f == map[])
  }

  /** A stored snapshot gives way to one that equals it, or to any with `--replace`. */
  ghost predicate GivesWay(f: Fields, q: Request) {
    || q.replace
    || forall m :: Raw.Holds(f, ActivitySnapshotKey, Obj(m)) ==> Canonical(Obj(m)) == Canonical(Obj(q.snapshot))
  }

  ghost predicate Writable(rows: seq<Task>, q: Request, i: nat, f: Fields) {
    Target(rows, q, i) && rows[i].terminal && Reads(rows[i].details, f) && GivesWay(f, q)
  }

  lemma KeepsIff(f: Fields, q: Request)
    ensures Keeps(Get(f, ActivitySnapshotKey), q) <==> !GivesWay(f, q)
  {
    var existing := Get(f, ActivitySnapshotKey);
    SameValueIff(existing, Obj(q.snapshot));
    if existing.Obj? {
      assert Raw.Holds(f, ActivitySnapshotKey, Obj(existing.fields));
    }
  }

  lemma TargetIff(rows: seq<Task>, q: Request, i: nat)
    ensures Target(rows, q, i) <==> First(rows, q) == Some(i) && Count(rows, q) == 1
  {
    if i < |rows| && Wanted(rows[i], q) {
      CountIsOne(rows, q, i);
    }
  }

  /** A request is written exactly when its one row is terminal, readable and gives way. */
  lemma WritesIff(rows: seq<Task>, q: Request)
    ensures Verdict(rows, q).None? <==> exists i: nat, f :: Writable(rows, q, i, f)
  {
    hide First, Count, Target, GivesWay, Keeps;
    forall i: nat ensures Target(rows, q, i) <==> First(rows, q) == Some(i) && Count(rows, q) == 1 {
      TargetIff(rows, q, i);
    }
    if Unread(rows, q).None? {
      var i := First(rows, q).value;
      var f := DetailsOf(rows, q);
      assert Reads(rows[i].details, f);
      KeepsIff(f, q);
      if Verdict(rows, q).None? {
        assert Writable(rows, q, i, f);
      }
    }
  }

  /** What is written: the snapshot into the one row's object, and nothing anywhere else. */
  lemma WriteOutcome(rows: seq<Task>, q: Request, i: nat, f: Fields)
    requires Writable(rows, q, i, f)
    ensures Verdict(rows, q).None?
    ensures Committed(rows, q) ==
      rows[i := rows[i].(details := Details(f[ActivitySnapshotKey := Obj(q.snapshot)]))]
  {
    hide First, Count, Target, GivesWay, Keeps;
    WritesIff(rows, q);
    TargetIff(rows, q, i);
  }

  /** A refused request leaves every row. */
  lemma RefusalOutcome(rows: seq<Task>, q: Request)
    requires forall i: nat, f :: !Writable(rows, q, i, f)
    ensures Verdict(rows, q).Some? && Committed(rows, q) == rows
  {
    hide First, Count, GivesWay, Keeps, Writable;
    WritesIff(rows, q);
  }

  /** The reason is that of the first row with the request's task and session. */
  lemma RefusalReason(rows: seq<Task>, q: Request, i: nat)
    requires i < |rows| && rows[i].taskId == q.taskId && rows[i].sessionKey == q.sessionKey
    requires forall j :: 0 <= j < i ==> !(rows[j].taskId == q.taskId && rows[j].sessionKey == q.sessionKey)
    ensures Verdict(rows, q) == Some(NotTerminal) <==> !rows[i].terminal
    ensures Verdict(rows, q) == Some(BadDetails) <==> rows[i].terminal && rows[i].details == Unreadable
    ensures Verdict(rows, q) == Some(DifferentSnapshot) <==>
      rows[i].terminal && exists f :: Reads(rows[i].details, f) && !GivesWay(f, q)
    ensures Verdict(rows, q) != Some(TaskNotFound)
  {
    hide Count, GivesWay, Keeps;
    assert First(rows, q) == Some(i);
    if rows[i].terminal && rows[i].details != Unreadable {
      assert Reads(rows[i].details, DetailsOf(rows, q));
      KeepsIff(DetailsOf(rows, q), q);
    }
  }

  lemma MissingTask(rows: seq<Task>, q: Request)
    ensures Verdict(rows, q) == Some(TaskNotFound) <==>
      forall j :: 0 <= j < |rows| ==> !(rows[j].taskId == q.taskId && rows[j].sessionKey == q.sessionKey)
  {
    hide Count, Keeps;
  }
}
