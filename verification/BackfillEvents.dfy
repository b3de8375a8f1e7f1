/**
 The replay evidence of the activity backfill: which exported event streams are accepted.
 The scans keep only the previous number, the current generation and the last terminal and
 commit events; the specifications speak of all pairs of events.
 */
module BackfillEvents {
  import opened Common
  import opened Utf16

  /** Object keys the backfill reads; any other key is `OtherKey`. */
  datatype Key =
    | EventsKey | ReplayKey | EventNameKey | EventKey | PayloadKey | StreamSeqKey | StreamGenerationKey
    | TaskIdKey | TaskIdCamelKey | TurnIdKey | TurnIdCamelKey
    | MessagesKey | RoleKey | TurnContextKey | MessageIdKey | IdKey
    | ReasoningContentKey | ReasoningKey | TextKey | RawKey | ToolCallsKey | TimelineKey
    | TypeKey | NameKey | ToolNameKey | ToolUseIdKey | ToolUseIdCamelKey | ActivitySnapshotKey
    | OtherKey(name: string)

  /** A decoded JSON document. */
  datatype Json =
    | Null
    | Bool(b: bool)
    | Num(n: int)
    | Fraction(x: real)
    | Str(text: Text)
    | List(items: seq<Json>)
    | Obj(fields: map<Key, Json>)

  type Fields = map<Key, Json>

  datatype Error =
    | NoEvents | NonObjectEvent | NameOrPayloadMissing | NotIncreasing | MixedGenerations
    | OtherTask | OtherTurn | NoTerminalEvent | NoCommitAfterTerminal
    | NoMessages | NotOneMessage
    | ReasoningNotText | ReasoningLength | NonObjectSegment | TextCount | TextLength
    | ToolIdentity | ToolConflict | ToolMismatch | NotEncodable | NoCompleteSnapshot

  datatype Result<+T> = Ok(value: T) | Err(error: Error)

  datatype Event = Event(name: Text, streamSeq: int, payload: Fields)

  function Lit(s: string): Text {
    seq(|s|, i requires 0 <= i < |s| => s[i] as int)
  }

  const DONE: Text := Lit("session.event.done")
  const ERROR: Text := Lit("session.event.error")
  const COMMITTED: Text := Lit("session.event.turn_committed")

  /** `mapping.get(key)`: a missing key reads as null. */
  function Get(m: Fields, k: Key): Json {
    if k in m then m[k] else Null
  }

  /** `mapping.get(key, default)`: a key that holds null does not take the default. */
  function GetOr(m: Fields, k: Key, d: Json): Json {
    if k in m then m[k] else d
  }

  /******* Reading the export *******/

  function RawEvents(value: Json): Option<seq<Json>> {
    match value
    case List(xs) => Some(xs)
    case Obj(m) =>
      if Get(m, EventsKey).List? then Some(Get(m, EventsKey).items)
      else if Get(m, ReplayKey).Obj? && Get(Get(m, ReplayKey).fields, EventsKey).List?
      then Some(Get(Get(m, ReplayKey).fields, EventsKey).items)
      else None
    case _ => None
  }

  /** The event keeps its original name and payload. */
  predicate Retained(raw: Json) {
    && raw.Obj?
    && GetOr(raw.fields, EventNameKey, Get(raw.fields, EventKey)).Str?
    && Get(raw.fields, PayloadKey).Obj?
  }

  function Read(raw: Json, k: Key): Json
    requires Retained(raw)
  {
    GetOr(Get(raw.fields, PayloadKey).fields, k, Get(raw.fields, k))
  }

  predicate Numbered(raw: Json) {
    Retained(raw) && Read(raw, StreamSeqKey).Num?
  }

  function Number(raw: Json): int
    requires Numbered(raw)
  {
    Read(raw, StreamSeqKey).n
  }

  /** The generation the event names, if it names one. */
  function Generation(raw: Json): Option<Text> {
    if Retained(raw) && Read(raw, StreamGenerationKey).Str? && Read(raw, StreamGenerationKey).text != []
    then Some(Read(raw, StreamGenerationKey).text) else None
  }

  function Parsed(raw: Json): Event
    requires Numbered(raw)
  {
    Event(GetOr(raw.fields, EventNameKey, Get(raw.fields, EventKey)).text, Number(raw),
          Get(raw.fields, PayloadKey).fields)
  }

  /** Its number is not positive, or some earlier event reached it already. */
  ghost predicate Overtaken(raws: seq<Json>, i: nat)
    requires i < |raws| && Numbered(raws[i])
  {
    Number(raws[i]) <= 0 || exists j :: 0 <= j < i && Numbered(raws[j]) && Number(raws[j]) >= Number(raws[i])
  }

  /** Two named generations differ. */
  predicate Clash(a: Json, b: Json) {
    Generation(a).Some? && Generation(b).Some? && Generation(a) != Generation(b)
  }

  /** What is wrong with event `i`, seen against all earlier ones. */
  ghost function Fault(raws: seq<Json>, i: nat): Option<Error>
    requires i < |raws|
  {
    if !raws[i].Obj? then Some(NonObjectEvent)
    else if !Retained(raws[i]) then Some(NameOrPayloadMissing)
    else if !Numbered(raws[i]) || Overtaken(raws, i) then Some(NotIncreasing)
    else if exists j :: 0 <= j < i && Clash(raws[j], raws[i]) then Some(MixedGenerations)
    else None
  }

  ghost predicate Faultless(raws: seq<Json>, upTo: nat)
    requires upTo <= |raws|
  {
    forall i: nat :: i < upTo ==> Fault(raws, i) == None
  }

  ghost predicate FirstFault(raws: seq<Json>, e: Error) {
    exists i: nat :: i < |raws| && Faultless(raws, i) && Fault(raws, i) == Some(e)
  }

  lemma Refused(raws: seq<Json>, i: nat, e: Error)
    requires i < |raws| && Faultless(raws, i) && Fault(raws, i) == Some(e)
    ensures !Faultless(raws, |raws|) && FirstFault(raws, e)
  {
  }

  ghost predicate AllNumbered(raws: seq<Json>) {
    forall i :: 0 <= i < |raws| ==> Numbered(raws[i])
  }

  ghost function ParsedAll(raws: seq<Json>): seq<Event>
    requires AllNumbered(raws)
  {
    seq(|raws|, i requires 0 <= i < |raws| => Parsed(raws[i]))
  }

  /** The numbers so far, and the last of them. */
  ghost predicate Reached(raws: seq<Json>, n: nat, previous: int)
    requires n <= |raws|
  {
    && (forall j :: 0 <= j < n ==> Numbered(raws[j]) && 0 < Number(raws[j]) <= previous)
    && (if n == 0 then previous == 0 else previous == Number(raws[n - 1]))
  }

  lemma LateIsFault(raws: seq<Json>, i: nat, previous: int)
    requires i < |raws| && Reached(raws, i, previous) && Retained(raws[i])
    ensures !Numbered(raws[i]) || Number(raws[i]) <= previous <==> !Numbered(raws[i]) || Overtaken(raws, i)
  {
    if i > 0 && Numbered(raws[i]) && Number(raws[i]) <= previous {
      assert Number(raws[i - 1]) >= Number(raws[i]);
    }
  }

  method ScanEvents(raws: seq<Json>) returns (r: Result<seq<Event>>)
    ensures r.Ok? <==> Faultless(raws, |raws|)
    ensures r.Ok? ==> AllNumbered(raws) && r.value == ParsedAll(raws)
    ensures r.Err? ==> FirstFault(raws, r.error)
  {
    var events: seq<Event> := [];
    var previous := 0;
    var generation: Option<Text> := None;
    for i := 0 to |raws|
      invariant Faultless(raws, i)
      invariant Reached(raws, i, previous)
      invariant Current(raws, i, generation)
      invariant |events| == i && forall j :: 0 <= j < i ==> events[j] == Parsed(raws[j])
    {
      var raw := raws[i];
      if !raw.Obj? {
        Refused(raws, i, NonObjectEvent);
        return Err(NonObjectEvent);
      }
      if !Retained(raw) {
        Refused(raws, i, NameOrPayloadMissing);
        return Err(NameOrPayloadMissing);
      }
      LateIsFault(raws, i, previous);
      if !Read(raw, StreamSeqKey).Num? || Read(raw, StreamSeqKey).n <= previous {
        Refused(raws, i, NotIncreasing);
        return Err(NotIncreasing);
      }
      previous := Read(raw, StreamSeqKey).n;
      var named := Generation(raw);
      if named.Some? {
        if generation.Some? && named != generation {
          assert exists j :: 0 <= j < i && Clash(raws[j], raws[i]);
          Refused(raws, i, MixedGenerations);
          return Err(MixedGenerations);
        }
        generation := named;
      }
      events := events + [Parsed(raw)];
    }
    return Ok(events);
  }

  method EventsFromExport(value: Json) returns (r: Result<seq<Event>>)
    ensures r.Ok? <==> Accepted(value)
    ensures r.Ok? ==> r.value == ParsedAll(RawEvents(value).value)
    ensures r.Err? && !Listed(value) ==> r.error == NoEvents
    ensures r.Err? && Listed(value) ==> FirstFault(RawEvents(value).value, r.error)
  {
    if RawEvents(value).None? || RawEvents(value).value == [] {
      return Err(NoEvents);
    }
    FaultlessIffWellOrdered(RawEvents(value).value);
    r := ScanEvents(RawEvents(value).value);
  }

  predicate Listed(value: Json) {
    RawEvents(value).Some? && RawEvents(value).value != []
  }

  ghost predicate Accepted(value: Json)
    ensures Accepted(value) ==> Listed(value) && AllNumbered(RawEvents(value).value)
  {
    Listed(value) && WellOrdered(RawEvents(value).value)
  }

  /** `generation` is the one every named generation of the first `n` events equals. */
  ghost predicate Current(raws: seq<Json>, n: nat, generation: Option<Text>)
    requires n <= |raws|
  {
    && (forall j :: 0 <= j < n && Generation(raws[j]).Some? ==> Generation(raws[j]) == generation)
    && (generation.Some? ==> exists j :: 0 <= j < n && Generation(raws[j]) == generation)
  }

  /** Acceptance, stated over all pairs of events. */
  ghost predicate WellOrdered(raws: seq<Json>) {
    && (forall i :: 0 <= i < |raws| ==> Numbered(raws[i]) && Number(raws[i]) > 0)
    && (forall i, j :: 0 <= i < j < |raws| ==> Number(raws[i]) < Number(raws[j]))
    && (forall i, j :: 0 <= i < |raws| && 0 <= j < |raws| ==> !Clash(raws[i], raws[j]))
  }

  lemma FaultlessIffWellOrdered(raws: seq<Json>)
    ensures Faultless(raws, |raws|) <==> WellOrdered(raws)
  {
    if Faultless(raws, |raws|) {
      forall i | 0 <= i < |raws| ensures Numbered(raws[i]) && Number(raws[i]) > 0 {
        assert Fault(raws, i) == None;
      }
      forall i, j | 0 <= i < j < |raws| ensures Number(raws[i]) < Number(raws[j]) && !Clash(raws[i], raws[j]) {
        assert Fault(raws, j) == None;
      }
      forall i, j | 0 <= i < |raws| && 0 <= j < |raws| ensures !Clash(raws[i], raws[j]) {
        if j < i {
          assert !Clash(raws[j], raws[i]);
        }
      }
    }
  }

  /******* Identities, terminal and commit events *******/

  function Identity(payload: Fields, name: Key, other: Key): Option<Text> {
    if Get(payload, name).Str? && Get(payload, name).text != [] then Some(Get(payload, name).text)
    else if Get(payload, other).Str? && Get(payload, other).text != [] then Some(Get(payload, other).text)
    else None
  }

  predicate Terminal(e: Event) {
    e.name == DONE || e.name == ERROR
  }

  predicate Commit(e: Event) {
    e.name == COMMITTED
  }

  predicate TaskAgrees(e: Event, task: Text) {
    var id := Identity(e.payload, TaskIdKey, TaskIdCamelKey);
    id.None? || id == Some(task)
  }

  predicate TurnAgrees(e: Event, turn: Text) {
    var id := Identity(e.payload, TurnIdKey, TurnIdCamelKey);
    id.None? || id == Some(turn)
  }

  predicate Agrees(e: Event, task: Text, turn: Text) {
    TaskAgrees(e, task) && TurnAgrees(e, turn)
  }

  /** `found` is the number of the last event among the first `n` that `p` accepts. */
  ghost predicate Last(events: seq<Event>, n: nat, p: Event -> bool, found: Option<int>)
    requires n <= |events|
  {
    if found.None? then forall i :: 0 <= i < n ==> !p(events[i])
    else exists i ::
      0 <= i < n && p(events[i]) && events[i].streamSeq == found.value && forall j :: i < j < n ==> !p(events[j])
  }

  ghost predicate HasTerminal(events: seq<Event>) {
    exists i :: 0 <= i < |events| && Terminal(events[i])
  }

  ghost predicate Increasing(events: seq<Event>) {
    forall i, j :: 0 <= i < j < |events| ==> events[i].streamSeq < events[j].streamSeq
  }

  /** Some commit follows every terminal event, and there is a terminal event. */
  ghost predicate Settled(events: seq<Event>) {
    && (exists t :: 0 <= t < |events| && Terminal(events[t]))
    && exists c :: 0 <= c < |events| && Commit(events[c]) && FollowsTerminals(events, c)
  }

  ghost predicate FollowsTerminals(events: seq<Event>, c: nat)
    requires c < |events|
  {
    forall t :: 0 <= t < |events| && Terminal(events[t]) ==> t < c
  }

  lemma LastIsUnique(events: seq<Event>, p: Event -> bool, a: Option<int>, b: Option<int>)
    requires Last(events, |events|, p, a) && Last(events, |events|, p, b)
    ensures a == b
  {
  }

  /** The comparison the scan ends with. */
  ghost predicate LastCommitIsLater(events: seq<Event>) {
    exists t: int, c: int :: t < c && LastNumbers(events, t, c)
  }

  ghost predicate LastNumbers(events: seq<Event>, t: int, c: int) {
    Last(events, |events|, Terminal, Some(t)) && Last(events, |events|, Commit, Some(c))
  }

  lemma LastExists(events: seq<Event>, n: nat, p: Event -> bool) returns (found: Option<int>)
    requires n <= |events|
    ensures Last(events, n, p, found)
  {
    if n == 0 {
      found := None;
    } else if p(events[n - 1]) {
      found := Some(events[n - 1].streamSeq);
    } else {
      found := LastExists(events, n - 1, p);
    }
  }

  /** On a stream in order, comparing the two last numbers decides `Settled`. */
  lemma LastNumbersDecide(events: seq<Event>)
    requires Increasing(events)
    ensures LastCommitIsLater(events) <==> Settled(events)
  {
    var terminal := LastExists(events, |events|, Terminal);
    var commit := LastExists(events, |events|, Commit);
    if terminal.Some? && commit.Some? {
      assert LastNumbers(events, terminal.value, commit.value);
      LastNumbersCompare(events, terminal.value, commit.value);
      if t, c :| t < c && LastNumbers(events, t, c) {
        LastIsUnique(events, Terminal, Some(t), terminal);
        LastIsUnique(events, Commit, Some(c), commit);
      }
    } else if LastCommitIsLater(events) {
      var t, c :| t < c && LastNumbers(events, t, c);
      LastIsUnique(events, Terminal, Some(t), terminal);
      LastIsUnique(events, Commit, Some(c), commit);
    }
  }

  lemma LastNumbersCompare(events: seq<Event>, terminal: int, commit: int)
    requires Increasing(events) && LastNumbers(events, terminal, commit)
    ensures Settled(events) <==> commit > terminal
  {
    var t :| 0 <= t < |events| && Terminal(events[t]) && events[t].streamSeq == terminal
             && forall j :: t < j < |events| ==> !Terminal(events[j]);
    var c :| 0 <= c < |events| && Commit(events[c]) && events[c].streamSeq == commit
             && forall j :: c < j < |events| ==> !Commit(events[j]);
    if commit > terminal {
      assert t < c;
      assert FollowsTerminals(events, c);
    } else {
      assert c <= t;
    }
  }

  ghost predicate FirstForeign(events: seq<Event>, i: nat, task: Text, turn: Text) {
    i < |events| && !Agrees(events[i], task, turn) && forall j :: 0 <= j < i ==> Agrees(events[j], task, turn)
  }

  /** The task is looked at before the turn. */
  function ForeignError(e: Event, task: Text): Error {
    if !TaskAgrees(e, task) then OtherTask else OtherTurn
  }

  method ValidateEvidence(events: seq<Event>, task: Text, turn: Text) returns (r: Result<()>)
    ensures r.Ok? <==> (forall i :: 0 <= i < |events| ==> Agrees(events[i], task, turn)) && LastCommitIsLater(events)
    ensures r.Err? && (forall i :: 0 <= i < |events| ==> Agrees(events[i], task, turn)) ==>
      r.error == (if HasTerminal(events) then NoCommitAfterTerminal else NoTerminalEvent)
    ensures r.Err? && !(forall i :: 0 <= i < |events| ==> Agrees(events[i], task, turn)) ==>
      exists i: nat :: FirstForeign(events, i, task, turn) && r.error == ForeignError(events[i], task)
  {
    var terminal: Option<int> := None;
    var commit: Option<int> := None;
    for i := 0 to |events|
      invariant forall j :: 0 <= j < i ==> Agrees(events[j], task, turn)
      invariant Last(events, i, Terminal, terminal)
      invariant Last(events, i, Commit, commit)
    {
      var e := events[i];
      assert !Agrees(e, task, turn) ==> FirstForeign(events, i, task, turn);
      if !TaskAgrees(e, task) {
        return Err(OtherTask);
      }
      if !TurnAgrees(e, turn) {
        return Err(OtherTurn);
      }
      if Terminal(e) {
        terminal := Some(e.streamSeq);
      }
      if Commit(e) {
        commit := Some(e.streamSeq);
      }
    }
    if t, c :| t < c && LastNumbers(events, t, c) {
      LastIsUnique(events, Terminal, Some(t), terminal);
      LastIsUnique(events, Commit, Some(c), commit);
    } else if terminal.Some? && commit.Some? {
      assert LastNumbers(events, terminal.value, commit.value);
    }
    if terminal.None? {
      return Err(NoTerminalEvent);
    }
    if commit.None? || commit.value <= terminal.value {
      return Err(NoCommitAfterTerminal);
    }
    return Ok(());
  }

  /** Everything the replay export has to satisfy, as one statement about the raw document. */
  ghost predicate Evidence(value: Json, task: Text, turn: Text) {
    && Accepted(value)
    && var events := ParsedAll(RawEvents(value).value);
      && (forall i :: 0 <= i < |events| ==> Agrees(events[i], task, turn))
      && Settled(events)
  }

  method AcceptReplay(value: Json, task: Text, turn: Text) returns (r: Result<seq<Event>>)
    ensures r.Ok? <==> Evidence(value, task, turn)
    ensures r.Ok? ==> r.value == ParsedAll(RawEvents(value).value)
  {
    r := EventsFromExport(value);
    if r.Ok? {
      LastNumbersDecide(r.value);
      var checked := ValidateEvidence(r.value, task, turn);
      if checked.Err? {
        r := Err(checked.error);
      }
    }
  }
}
