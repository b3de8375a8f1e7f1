/**
 Progress of the acceptance runner: as long as report.json is not cut short, some continuation
 records every case, whatever crashed before.
 */
module ResumeProgress {
  import opened Common
  import opened Resume

  function From(cases: seq<Case>, w: World, fs: seq<Step>): World {
    if fs == [] then w else Next(cases, From(cases, w, fs[..|fs| - 1]), fs[|fs| - 1])
  }

  lemma FromStep(cases: seq<Case>, w: World, fs: seq<Step>, i: nat)
    requires i < |fs|
    ensures From(cases, w, fs[..i + 1]) == Next(cases, From(cases, w, fs[..i]), fs[i])
  {
    assert fs[..i + 1][..i] == fs[..i];
  }

  lemma {:induction false} FromConcat(cases: seq<Case>, w: World, a: seq<Step>, b: seq<Step>)
    ensures From(cases, w, a + b) == From(cases, From(cases, w, a), b)
    decreases |b|
  {
    hide Next;
    if b == [] {
      assert a + b == a;
    } else {
      FromConcat(cases, w, a, b[..|b| - 1]);
      assert (a + b)[..|a + b| - 1] == a + b[..|b| - 1];
    }
  }

  lemma {:induction false} RunIsFrom(cases: seq<Case>, es: seq<Step>)
    ensures Run(cases, es) == From(cases, BEGINNING, es)
    decreases |es|
  {
    hide Next;
    if es != [] {
      RunIsFrom(cases, es[..|es| - 1]);
    }
  }

  lemma {:induction false} FromKeepsInv(cases: seq<Case>, w: World, fs: seq<Step>)
    requires Distinct(cases) && Inv(cases, w)
    ensures Inv(cases, From(cases, w, fs))
    decreases |fs|
  {
    hide Next, Inv;
    if fs != [] {
      FromKeepsInv(cases, w, fs[..|fs| - 1]);
      NextKeepsInv(cases, From(cases, w, fs[..|fs| - 1]), fs[|fs| - 1]);
    }
  }

  /******* One case, in a process of its own *******/

  /** Nobody runs, and the file can be read. */
  predicate Idle(w: World) {
    w.memory.None? && w.disk.Saved?
  }

  function Recorded(w: World): set<CaseId>
    requires w.disk.Saved?
  {
    Ids(w.disk.report.entries)
  }

  /** A resume that takes one case through without an accident, then ends. */
  function Attempt(i: nat, newKey: Key, request: Uuid): (fs: seq<Step>)
    ensures |fs| == 8
  {
    [Start(true), Name(i, newKey), Reserve(request, false), Post(false), Reply, Settle, WriteReport, Crash]
  }

  lemma StartsAndNames(cases: seq<Case>, w: World, i: nat, newKey: Key)
    requires Idle(w) && i < |cases| && cases[i].id !in Recorded(w)
    requires w.disk.report.pending.Some? ==> w.disk.report.pending.value.id == cases[i].id
    ensures var v := Next(cases, Next(cases, w, Start(true)), Name(i, newKey));
      && v.memory.Some? && v.memory.value.phase.Named? && v.memory.value.phase.i == i && v.used == w.used
      && v.memory.value.report.entries == w.disk.report.entries
      && v.memory.value.report.pending == w.disk.report.pending
  {
  }

  /** The case is pending in memory, and its request is out or about to go out. */
  predicate Underway(cases: seq<Case>, v: World, i: nat, entries: seq<Entry>) {
    && i < |cases| && v.memory.Some? && v.memory.value.report.pending.Some?
    && v.memory.value.report.pending.value.id == cases[i].id && v.memory.value.report.entries == entries
  }

  lemma Reserves(cases: seq<Case>, v: World, i: nat, request: Uuid)
    requires i < |cases| && v.memory.Some? && v.memory.value.phase.Named? && v.memory.value.phase.i == i
    requires request !in v.used
    requires v.memory.value.report.pending.Some? ==> v.memory.value.report.pending.value.id == cases[i].id
    ensures var u := Next(cases, v, Reserve(request, false));
      && Underway(cases, u, i, v.memory.value.report.entries)
      && (u.memory.value.phase.Accepted? || (u.memory.value.phase.Reserved? && u.memory.value.phase.i == i))
  {
  }

  lemma Replies(cases: seq<Case>, u: World, i: nat, entries: seq<Entry>)
    requires Underway(cases, u, i, entries)
    requires u.memory.value.phase.Accepted? || (u.memory.value.phase.Reserved? && u.memory.value.phase.i == i)
    ensures var t := Next(cases, Next(cases, u, Post(false)), Reply);
      Underway(cases, t, i, entries) && t.memory.value.phase.Accepted?
  {
  }

  lemma Records(cases: seq<Case>, t: World, i: nat, entries: seq<Entry>)
    requires Underway(cases, t, i, entries) && t.memory.value.phase.Accepted?
    ensures var z := Next(cases, Next(cases, Next(cases, t, Settle), WriteReport), Crash);
      Idle(z) && z.disk.report.pending.None? && Recorded(z) == Ids(entries) + {cases[i].id}
  {
    var e := Entry(cases[i].id, t.memory.value.phase.key);
    assert Ids(entries + [e]) == Ids(entries) + {e.id};
  }

  lemma RecordsOne(cases: seq<Case>, w: World, i: nat, newKey: Key, request: Uuid)
    requires Idle(w) && i < |cases| && cases[i].id !in Recorded(w) && request !in w.used
    requires w.disk.report.pending.Some? ==> w.disk.report.pending.value.id == cases[i].id
    ensures var z := From(cases, w, Attempt(i, newKey, request));
      Idle(z) && z.disk.report.pending.None? && Recorded(z) == Recorded(w) + {cases[i].id}
  {
    hide Next, Ids;
    var fs := Attempt(i, newKey, request);
    FromStep(cases, w, fs, 0);
    FromStep(cases, w, fs, 1);
    StartsAndNames(cases, w, i, newKey);
    FromStep(cases, w, fs, 2);
    Reserves(cases, From(cases, w, fs[..2]), i, request);
    FromStep(cases, w, fs, 3);
    FromStep(cases, w, fs, 4);
    Replies(cases, From(cases, w, fs[..3]), i, w.disk.report.entries);
    FromStep(cases, w, fs, 5);
    FromStep(cases, w, fs, 6);
    FromStep(cases, w, fs, 7);
    Records(cases, From(cases, w, fs[..5]), i, w.disk.report.entries);
    assert fs[..8] == fs;
  }

  /******* Every case *******/

  lemma {:induction false} LongerThanAll(used: set<Uuid>) returns (n: nat)
    ensures forall u :: u in used ==> |u| < n
    decreases |used|
  {
    if used == {} {
      n := 0;
    } else {
      var u :| u in used;
      var m := LongerThanAll(used - {u});
      n := if |u| < m then m else |u| + 1;
    }
  }

  lemma FreshRequest(used: set<Uuid>) returns (request: Uuid)
    ensures request !in used
  {
    var n := LongerThanAll(used);
    request := seq(n, _ => '0');
    assert |request| == n;
  }

  lemma {:induction false} CaseOfGroup(cases: seq<Case>, id: CaseId) returns (i: nat)
    requires GroupOf(cases, id).Some?
    ensures i < |cases| && cases[i].id == id
  {
    if cases[0].id == id {
      i := 0;
    } else {
      var j := CaseOfGroup(cases[1..], id);
      i := j + 1;
    }
  }

  /** The pending case comes first; without one, any case not recorded will do. */
  lemma NextCase(cases: seq<Case>, w: World, open: set<CaseId>) returns (i: nat)
    requires Inv(cases, w) && Idle(w) && open != {}
    requires open == Unrecorded(cases, w)
    ensures i < |cases| && cases[i].id in open
    ensures w.disk.report.pending.Some? ==> w.disk.report.pending.value.id == cases[i].id
  {
    if w.disk.report.pending.Some? {
      var p := w.disk.report.pending.value;
      assert p.id in w.tickets && p.id !in Recorded(w);
      i := CaseOfGroup(cases, p.id);
    } else {
      var c :| c in open;
      i :| 0 <= i < |cases| && cases[i].id == c;
    }
  }

  function Unrecorded(cases: seq<Case>, w: World): set<CaseId>
    requires w.disk.Saved?
  {
    set i | 0 <= i < |cases| && cases[i].id !in Recorded(w) :: cases[i].id
  }

  lemma {:induction false} RecordsAll(cases: seq<Case>, w: World) returns (fs: seq<Step>)
    requires Distinct(cases) && Inv(cases, w) && Idle(w)
    ensures Idle(From(cases, w, fs)) && Unrecorded(cases, From(cases, w, fs)) == {}
    decreases |Unrecorded(cases, w)|
  {
    var open := Unrecorded(cases, w);
    if open == {} {
      fs := [];
    } else {
      var i := NextCase(cases, w, open);
      var request := FreshRequest(w.used);
      var first := Attempt(i, "", request);
      RecordsOne(cases, w, i, "", request);
      FromKeepsInv(cases, w, first);
      var z := From(cases, w, first);
      FewerOpen(cases, w, z, cases[i].id);
      var rest := RecordsAll(cases, z);
      fs := first + rest;
      FromConcat(cases, w, first, rest);
    }
  }

  lemma FewerOpen(cases: seq<Case>, w: World, z: World, c: CaseId)
    requires w.disk.Saved? && z.disk.Saved? && Recorded(z) == Recorded(w) + {c} && c in Unrecorded(cases, w)
    ensures |Unrecorded(cases, z)| < |Unrecorded(cases, w)|
  {
    hide Recorded;
    assert Unrecorded(cases, z) == Unrecorded(cases, w) - {c};
  }

  /** Ends the process there is, if any, and writes the first report if there is none. */
  lemma ReachesIdle(cases: seq<Case>, w: World) returns (fs: seq<Step>)
    requires !w.disk.Torn?
    ensures Idle(From(cases, w, fs))
  {
    fs := [Crash, Start(false), Crash];
    FromStep(cases, w, fs, 0);
    FromStep(cases, w, fs, 1);
    FromStep(cases, w, fs, 2);
    assert fs[..3] == fs && fs[..0] == [];
  }

  lemma NothingOpen(cases: seq<Case>, z: World)
    requires z.disk.Saved? && Unrecorded(cases, z) == {}
    ensures forall i :: 0 <= i < |cases| ==> cases[i].id in Recorded(z)
  {
    forall i | 0 <= i < |cases| ensures cases[i].id in Recorded(z) {
      assert cases[i].id !in Unrecorded(cases, z);
    }
  }

  /** From every reachable world whose file is not torn, all cases can still be recorded. */
  lemma EveryCaseCanBeRecorded(cases: seq<Case>, es: seq<Step>) returns (fs: seq<Step>)
    requires Distinct(cases) && !Run(cases, es).disk.Torn?
    ensures var z := Run(cases, es + fs);
      Idle(z) && forall i :: 0 <= i < |cases| ==> cases[i].id in Recorded(z)
  {
    hide Next, Inv;
    var w := Run(cases, es);
    RunKeepsInv(cases, es);
    var first := ReachesIdle(cases, w);
    FromKeepsInv(cases, w, first);
    var rest := RecordsAll(cases, From(cases, w, first));
    fs := first + rest;
    FromConcat(cases, w, first, rest);
    RunIsFrom(cases, es);
    RunIsFrom(cases, es + fs);
    FromConcat(cases, BEGINNING, es, fs);
    NothingOpen(cases, Run(cases, es + fs));
  }
}
