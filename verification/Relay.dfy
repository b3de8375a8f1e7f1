/**
 The bounded relay of the acceptance runner: a counter that many handler threads share. The
 check and the increment happen under one lock, the refund under the same lock later, and
 everything else runs unlocked, in any order.
 */
module Relay {
  import opened Common

  /** A decoded JSON value, as far as `type(value) is int` can tell it apart. */
  datatype Value = Int(n: int) | NotInt

  datatype Request = Request(
    model: Option<string>,
    maxTokens: Option<Value>,
    maxCompletionTokens: Option<Value>,
    n: Option<Value>)

  datatype Admission = Admitted | RequestLimit | OutputLimit

  const MAX_CALLS: nat := 90
  const MAX_TOKENS: nat := 8192

  /** The limits present in the request, in the order they are looked up. */
  function Limits(q: Request): seq<Value> {
    (if q.maxTokens.Some? then [q.maxTokens.value] else [])
    + (if q.maxCompletionTokens.Some? then [q.maxCompletionTokens.value] else [])
  }

  /** The one output limit the request asks for; the two spellings have to agree. */
  predicate AsksFor(q: Request, limit: int) {
    && (q.maxTokens.Some? || q.maxCompletionTokens.Some?)
    && (q.maxTokens.Some? ==> q.maxTokens.value == Int(limit))
    && (q.maxCompletionTokens.Some? ==> q.maxCompletionTokens.value == Int(limit))
  }

  ghost predicate Bounded(q: Request) {
    && (exists limit :: 1 <= limit <= MAX_TOKENS && AsksFor(q, limit))
    && (q.n.Some? ==> q.n.value == Int(1))
  }

  /******* All interleavings *******/

  type Thread = nat

  /**
   `inflight` threads hold a reservation and are entering the parent relay; `dispatched` ones
   went out. `logged` counts every request ever recorded before dispatch, over all processes.
   */
  datatype State = State(
    calls: int, base: int, inflight: set<Thread>, dispatched: set<Thread>, refused: set<Thread>, logged: int)

  datatype Step =
    | Arrive(t: Thread, admissible: bool)
    | Dispatch(t: Thread)
    | Reject(t: Thread)
    | Restart(reported: int)

  predicate Seen(s: State, t: Thread) {
    t in s.inflight || t in s.dispatched || t in s.refused
  }

  /** One locked section, one dispatch, or a new process that restores its counter from the log. */
  function Next(s: State, e: Step): State {
    match e
    case Arrive(t, admissible) =>
      if Seen(s, t) then s
      else if admissible && s.calls < MAX_CALLS then s.(calls := s.calls + 1, inflight := s.inflight + {t})
      else s.(refused := s.refused + {t})
    case Dispatch(t) =>
      if t !in s.inflight then s
      else s.(inflight := s.inflight - {t}, dispatched := s.dispatched + {t}, logged := s.logged + 1)
    case Reject(t) =>
      if t !in s.inflight then s
      else s.(calls := s.calls - 1, inflight := s.inflight - {t}, refused := s.refused + {t})
    case Restart(reported) =>
      State(Max(s.logged, reported), Max(s.logged, reported), {}, {}, {}, s.logged)
  }

  /** A process that just restored its counter from a log of `logged` requests. */
  function Fresh(logged: nat, reported: int): State {
    State(Max(logged, reported), Max(logged, reported), {}, {}, {}, logged)
  }

  /******* The relay object *******/

  class BoundedRelay {
    const model: string
    var calls: int
    ghost var state: State

    ghost predicate Valid()
      reads this
    {
      calls == state.calls
    }

    /** A relay whose counter is restored from the request log and the last report. */
    constructor (model: string, logged: nat, reported: int)
      ensures Valid() && this.model == model && state == Fresh(logged, reported)
    {
      this.model, calls := model, Max(logged, reported);
      state := Fresh(logged, reported);
    }

    /** The locked section that the request of thread `t` enters first. */
    method Admit(t: Thread, q: Request) returns (r: Admission)
      requires Valid() && !Seen(state, t)
      modifies this
      ensures Valid() && state == Next(old(state), Arrive(t, q.model == Some(model) && Bounded(q)))
      ensures r.Admitted? <==> old(calls) < MAX_CALLS && q.model == Some(model) && Bounded(q)
      ensures r.RequestLimit? <==> old(calls) >= MAX_CALLS || q.model != Some(model)
      ensures calls == old(calls) + if r.Admitted? then 1 else 0
    {
      state := Next(state, Arrive(t, q.model == Some(model) && Bounded(q)));
      if calls >= MAX_CALLS || q.model != Some(model) {
        return RequestLimit;
      }
      var bounded := CheckOutput(q);
      if !bounded {
        return OutputLimit;
      }
      calls := calls + 1;
      return Admitted;
    }

    static method CheckOutput(q: Request) returns (ok: bool)
      ensures ok <==> Bounded(q)
    {
      var limits := Limits(q);
      if limits == [] {
        return false;
      }
      for i := 0 to |limits|
        invariant forall j :: 0 <= j < i ==> limits[j].Int? && 1 <= limits[j].n <= MAX_TOKENS
      {
        if !limits[i].Int? || !(1 <= limits[i].n <= MAX_TOKENS) {
          LimitIsPresent(q, i);
          return false;
        }
      }
      for i := 0 to |limits|
        invariant forall j :: 0 <= j < i ==> limits[j] == limits[0]
      {
        if limits[i] != limits[0] {
          return false;
        }
      }
      assert limits[|limits| - 1] == limits[0];
      assert AsksFor(q, limits[0].n);
      return !q.n.Some? || q.n.value == Int(1);
    }

    /** The parent relay accepted the request: nothing in this object but its history changes. */
    ghost method Dispatched(t: Thread)
      requires Valid() && t in state.inflight
      modifies this`state
      ensures Valid() && state == Next(old(state), Dispatch(t))
    {
      state := Next(state, Dispatch(t));
    }

    /** The locked section after the parent relay rejected the request before dispatch. */
    method Refund(t: Thread)
      requires Valid() && t in state.inflight
      modifies this
      ensures Valid() && state == Next(old(state), Reject(t))
      ensures calls == old(calls) - 1
    {
      calls := calls - 1;
      state := Next(state, Reject(t));
    }
  }

  lemma LimitIsPresent(q: Request, i: nat)
    requires i < |Limits(q)|
    ensures Some(Limits(q)[i]) == q.maxTokens || Some(Limits(q)[i]) == q.maxCompletionTokens
  {
  }

  /******* Whole runs *******/

  function Run(s: State, es: seq<Step>): State {
    if es == [] then s else Next(Run(s, es[..|es| - 1]), es[|es| - 1])
  }

  ghost predicate Inv(s: State, first: nat) {
    && s.inflight !! s.dispatched !! s.refused
    && s.calls == s.base + |s.inflight| + |s.dispatched|
    && s.calls <= Max(MAX_CALLS, s.base)
    && s.logged + |s.inflight| <= s.calls
    && s.logged <= Max(MAX_CALLS, first)
    && (s.inflight != {} ==> s.calls <= MAX_CALLS)
  }

  lemma Joins(a: set<Thread>, t: Thread)
    ensures t !in a ==> |a + {t}| == |a| + 1
    ensures t in a ==> |a - {t}| + 1 == |a|
  {
  }

  lemma ArriveKeepsInv(s: State, t: Thread, admissible: bool, first: nat)
    requires Inv(s, first)
    ensures Inv(Next(s, Arrive(t, admissible)), first)
  {
    Joins(s.inflight, t);
  }

  lemma DispatchKeepsInv(s: State, t: Thread, first: nat)
    requires Inv(s, first) && t in s.inflight
    ensures Inv(Next(s, Dispatch(t)), first)
  {
    Joins(s.inflight, t);
    Joins(s.dispatched, t);
  }

  lemma RejectKeepsInv(s: State, t: Thread, first: nat)
    requires Inv(s, first) && t in s.inflight
    ensures Inv(Next(s, Reject(t)), first)
  {
    Joins(s.inflight, t);
  }

  lemma NextKeepsInv(s: State, e: Step, first: nat)
    requires Inv(s, first)
    ensures Inv(Next(s, e), first)
  {
    match e
    case Arrive(t, admissible) => ArriveKeepsInv(s, t, admissible, first);
    case Dispatch(t) => if t in s.inflight { DispatchKeepsInv(s, t, first); }
    case Reject(t) => if t in s.inflight { RejectKeepsInv(s, t, first); }
    case Restart(_) =>
  }

  /**
   For any number of threads and any interleaving: the counter is the starting value plus
   in-flight plus dispatched requests, never above the larger of 90 and its starting value;
   with nothing in flight only dispatched requests count; and over all restarts no more than
   90 requests are dispatched beyond those already logged.
   */
  lemma {:induction false} CounterIsExact(logged: nat, reported: int, es: seq<Step>)
    ensures var s := Run(Fresh(logged, reported), es);
      && s.calls == s.base + |s.inflight| + |s.dispatched|
      && s.calls <= Max(MAX_CALLS, s.base)
      && (s.inflight == {} ==> s.calls == s.base + |s.dispatched|)
      && s.logged <= Max(MAX_CALLS, logged)
    ensures Inv(Run(Fresh(logged, reported), es), logged)
    decreases |es|
  {
    if es != [] {
      CounterIsExact(logged, reported, es[..|es| - 1]);
      NextKeepsInv(Run(Fresh(logged, reported), es[..|es| - 1]), es[|es| - 1], logged);
    }
  }

  /******* What the counter and the log count *******/

  /** Step `i` of the run sends a request of a thread that holds a reservation. */
  predicate Sends(s: State, es: seq<Step>, i: nat)
    requires i < |es|
  {
    es[i].Dispatch? && es[i].t in Run(s, es[..i]).inflight
  }

  function SendsOf(s: State, es: seq<Step>): set<nat> {
    set i: nat | i < |es| && Sends(s, es, i)
  }

  lemma SendsMore(s: State, es: seq<Step>)
    requires es != []
    ensures var n := |es| - 1;
      SendsOf(s, es) == SendsOf(s, es[..n]) + if Sends(s, es, n) then {n} else {}
  {
    var n := |es| - 1;
    forall i: nat | i < n ensures Sends(s, es, i) <==> Sends(s, es[..n], i) {
      assert es[..n][..i] == es[..i];
    }
  }

  /** The log grows by one for each request sent, in whatever process, and by nothing else. */
  lemma {:induction false} LogCountsSends(s: State, es: seq<Step>)
    ensures Run(s, es).logged == s.logged + |SendsOf(s, es)|
    decreases |es|
  {
    if es == [] {
      assert SendsOf(s, es) == {};
    } else {
      var n := |es| - 1;
      LogCountsSends(s, es[..n]);
      SendsMore(s, es);
      assert n !in SendsOf(s, es[..n]);
    }
  }

  /** So at most 90 requests leave in all, those logged before included, unless there were more already. */
  lemma SendsAreBounded(logged: nat, reported: int, es: seq<Step>)
    ensures logged + |SendsOf(Fresh(logged, reported), es)| <= if logged > 90 then logged else 90
  {
    LogCountsSends(Fresh(logged, reported), es);
    CounterIsExact(logged, reported, es);
  }

  /** Started at the end of some run, a process reserves nothing below what was logged or reported. */
  lemma RestartCounts(s: State, es: seq<Step>, reported: int)
    ensures var d := Run(s, es + [Restart(reported)]);
      && d.calls >= reported && d.calls >= s.logged + |SendsOf(s, es)|
      && (d.calls == reported || d.calls == s.logged + |SendsOf(s, es)|)
      && d.base == d.calls && d.inflight == {} && d.dispatched == {} && d.refused == {}
  {
    assert (es + [Restart(reported)])[..|es|] == es;
    LogCountsSends(s, es);
  }

  lemma FreshCounts(logged: nat, reported: int)
    ensures var s := Fresh(logged, reported);
      && s.calls >= reported && s.calls >= logged && (s.calls == reported || s.calls == logged)
      && s.base == s.calls && s.logged == logged && s.inflight == {} && s.dispatched == {} && s.refused == {}
  {
  }

  /** The limit a request may ask for, spelled out. */
  lemma BoundedIff(q: Request)
    ensures Bounded(q) <==>
      && (q.n == None || q.n == Some(Int(1)))
      && exists limit :: 1 <= limit <= 8192 && AsksOnce(q, Some(Int(limit)))
  {
    if Bounded(q) {
      var limit :| 1 <= limit <= MAX_TOKENS && AsksFor(q, limit);
      assert AsksOnce(q, Some(Int(limit)));
    }
    if limit :| 1 <= limit <= 8192 && AsksOnce(q, Some(Int(limit))) {
      assert AsksFor(q, limit);
    }
  }

  /** One spelling holds the limit, the other is absent or holds the same. */
  predicate AsksOnce(q: Request, limit: Option<Value>) {
    || (q.maxTokens == limit && (q.maxCompletionTokens == None || q.maxCompletionTokens == limit))
    || (q.maxTokens == None && q.maxCompletionTokens == limit)
  }

  /** Where a thread is after a step: it enters by an arrival only, and leaves by a dispatch or a refusal. */
  lemma ThreadMoves(s: State, e: Step, t: Thread)
    requires !e.Restart?
    ensures var d := Next(s, e);
      && (t in d.inflight && t !in s.inflight ==>
            e == Arrive(t, true) && !Seen(s, t) && s.calls < 90 && d.calls == s.calls + 1)
      && (e == Arrive(t, true) && !Seen(s, t) && s.calls < 90 ==> t in d.inflight)
      && (t in s.inflight && t !in d.inflight ==> e == Dispatch(t) || e == Reject(t))
      && (t in d.dispatched <==> t in s.dispatched || (t in s.inflight && e == Dispatch(t)))
      && (e == Reject(t) && t in s.inflight ==> t in d.refused && d.calls == s.calls - 1)
  {
  }
}
