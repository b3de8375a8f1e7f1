/**
 What an accepted replay export looks like, read off the raw document: which member of it holds
 the events, where an event keeps its name, number and generation, which strings in a payload
 name a task or a turn, and which event names end a turn and commit it.
 */
module BackfillRaw {
  import opened Common
  import opened Utf16
  import opened BackfillEvents

  ghost predicate Holds(m: Fields, k: Key, v: Json) {
    k in m && m[k] == v
  }

  /** `m` holds `v` under `k`, or has no `k` at all and `n` holds `v`. */
  ghost predicate HoldsOr(m: Fields, n: Fields, k: Key, v: Json) {
    Holds(m, k, v) || (k !in m && Holds(n, k, v))
  }

  ghost predicate HoldsName(m: Fields, k: Key, id: Text) {
    id != [] && Holds(m, k, Str(id))
  }

  /** The document's events: the document itself, else its `events`, else those of its `replay`. */
  ghost predicate Lists(value: Json, raws: seq<Json>) {
    || value == List(raws)
    || (value.Obj? && Holds(value.fields, EventsKey, List(raws)))
    || (value.Obj? && (forall xs :: !Holds(value.fields, EventsKey, List(xs)))
        && exists replay :: Holds(value.fields, ReplayKey, Obj(replay)) && Holds(replay, EventsKey, List(raws)))
  }

  /** `raw` is an event with that name and payload. */
  ghost predicate IsEvent(raw: Json, name: Text, payload: Fields) {
    && raw.Obj? && Holds(raw.fields, PayloadKey, Obj(payload))
    && (Holds(raw.fields, EventNameKey, Str(name))
        || (EventNameKey !in raw.fields && Holds(raw.fields, EventKey, Str(name))))
  }

  ghost predicate HasNumber(raw: Json, n: int) {
    exists name, p :: IsEvent(raw, name, p) && HoldsOr(p, raw.fields, StreamSeqKey, Num(n))
  }

  ghost predicate Positive(raw: Json) {
    exists n :: n > 0 && HasNumber(raw, n)
  }

  ghost predicate HasGeneration(raw: Json, g: Text) {
    g != [] && exists name, p :: IsEvent(raw, name, p) && HoldsOr(p, raw.fields, StreamGenerationKey, Str(g))
  }

  /** The name under `k` is another one than `id`; the name under `camel` counts if `k` holds none. */
  ghost predicate NamesOther(payload: Fields, k: Key, camel: Key, id: Text) {
    || (exists other :: other != id && HoldsName(payload, k, other))
    || ((forall x :: !HoldsName(payload, k, x)) && exists other :: other != id && HoldsName(payload, camel, other))
  }

  ghost predicate Foreign(payload: Fields, task: Text, turn: Text) {
    NamesOther(payload, TaskIdKey, TaskIdCamelKey, task) || NamesOther(payload, TurnIdKey, TurnIdCamelKey, turn)
  }

  predicate Spells(t: Text, s: string) {
    |t| == |s| && forall i :: 0 <= i < |s| ==> t[i] == s[i] as int
  }

  ghost predicate EndsTurn(raw: Json) {
    exists name, p ::
      IsEvent(raw, name, p) && (Spells(name, "session.event.done") || Spells(name, "session.event.error"))
  }

  ghost predicate CommitsTurn(raw: Json) {
    exists name, p :: IsEvent(raw, name, p) && Spells(name, "session.event.turn_committed")
  }

  /** Numbers rise from above zero, and at most one generation is named. */
  ghost predicate InOrder(raws: seq<Json>) {
    && (forall i :: 0 <= i < |raws| ==> Positive(raws[i]))
    && (forall i, j, m, n :: 0 <= i < j < |raws| && HasNumber(raws[i], m) && HasNumber(raws[j], n) ==> m < n)
    && (forall i, j, g, h ::
          0 <= i < |raws| && 0 <= j < |raws| && HasGeneration(raws[i], g) && HasGeneration(raws[j], h) ==> g == h)
  }

  /** Some commit comes after every terminal event, and there is one. */
  ghost predicate Ends(raws: seq<Json>) {
    && (exists t :: 0 <= t < |raws| && EndsTurn(raws[t]))
    && exists c :: 0 <= c < |raws| && CommitsTurn(raws[c]) && CommitsAll(raws, c)
  }

  ghost predicate CommitsAll(raws: seq<Json>, c: nat)
    requires c < |raws|
  {
    forall t :: 0 <= t < |raws| && EndsTurn(raws[t]) ==> t < c
  }

  ghost predicate NoForeignEvent(raws: seq<Json>, task: Text, turn: Text) {
    forall i, name, p :: 0 <= i < |raws| && IsEvent(raws[i], name, p) ==> !Foreign(p, task, turn)
  }

  /******* The parts *******/

  lemma ListsIff(value: Json, raws: seq<Json>)
    ensures Lists(value, raws) <==> RawEvents(value) == Some(raws)
  {
    if value.Obj? && Get(value.fields, EventsKey).List? {
      assert Holds(value.fields, EventsKey, List(Get(value.fields, EventsKey).items));
    } else if value.Obj? && Get(value.fields, ReplayKey).Obj? {
      assert Holds(value.fields, ReplayKey, Obj(Get(value.fields, ReplayKey).fields));
    }
  }

  lemma IsEventIff(raw: Json, name: Text, p: Fields)
    ensures IsEvent(raw, name, p) <==>
      Retained(raw) && name == GetOr(raw.fields, EventNameKey, Get(raw.fields, EventKey)).text
      && p == Get(raw.fields, PayloadKey).fields
  {
  }

  lemma RetainedIsEvent(raw: Json)
    requires Retained(raw)
    ensures IsEvent(raw, GetOr(raw.fields, EventNameKey, Get(raw.fields, EventKey)).text,
                    Get(raw.fields, PayloadKey).fields)
  {
  }

  lemma ReadIff(raw: Json, k: Key, v: Json)
    requires Retained(raw) && v != Null
    ensures HoldsOr(Get(raw.fields, PayloadKey).fields, raw.fields, k, v) <==> Read(raw, k) == v
  {
  }

  lemma NumberIff(raw: Json, n: int)
    ensures HasNumber(raw, n) <==> Numbered(raw) && Number(raw) == n
  {
    hide IsEvent, HoldsOr, Read, Get, GetOr;
    if Retained(raw) {
      RetainedIsEvent(raw);
      ReadIff(raw, StreamSeqKey, Num(n));
    }
    forall name, p | IsEvent(raw, name, p) ensures Retained(raw) && p == Get(raw.fields, PayloadKey).fields {
      IsEventIff(raw, name, p);
    }
  }

  lemma GenerationIff(raw: Json, g: Text)
    ensures HasGeneration(raw, g) <==> Generation(raw) == Some(g)
  {
    hide IsEvent, HoldsOr, Read, Get, GetOr;
    if Retained(raw) {
      RetainedIsEvent(raw);
      ReadIff(raw, StreamGenerationKey, Str(g));
    }
    forall name, p | IsEvent(raw, name, p) ensures Retained(raw) && p == Get(raw.fields, PayloadKey).fields {
      IsEventIff(raw, name, p);
    }
  }

  lemma NameIff(m: Fields, k: Key)
    ensures forall id :: HoldsName(m, k, id) <==> Get(m, k) == Str(id) && id != []
  {
  }

  lemma NamesOtherIff(payload: Fields, k: Key, camel: Key, id: Text)
    ensures NamesOther(payload, k, camel, id) <==>
      Identity(payload, k, camel).Some? && Identity(payload, k, camel) != Some(id)
  {
    hide HoldsName, Get;
    NameIff(payload, k);
    NameIff(payload, camel);
  }

  lemma ForeignIff(e: Event, task: Text, turn: Text)
    ensures Foreign(e.payload, task, turn) <==> !Agrees(e, task, turn)
  {
    hide NamesOther, Identity;
    NamesOtherIff(e.payload, TaskIdKey, TaskIdCamelKey, task);
    NamesOtherIff(e.payload, TurnIdKey, TurnIdCamelKey, turn);
  }

  lemma SpellsIff(t: Text, s: string)
    ensures Spells(t, s) <==> t == Lit(s)
  {
  }

  /** What the reader hands on: the event's own name, number and payload. */
  lemma ParsedIsRaw(raw: Json)
    requires Numbered(raw)
    ensures IsEvent(raw, Parsed(raw).name, Parsed(raw).payload) && HasNumber(raw, Parsed(raw).streamSeq)
  {
    hide HasNumber;
    NumberIff(raw, Number(raw));
  }

  lemma EndsTurnIff(raw: Json)
    requires Numbered(raw)
    ensures EndsTurn(raw) <==> Terminal(Parsed(raw))
    ensures CommitsTurn(raw) <==> Commit(Parsed(raw))
  {
    hide Spells, IsEvent, Retained, HasNumber, Number, Numbered, Lit;
    ParsedIsRaw(raw);
    var name := Parsed(raw).name;
    SpellsIff(name, "session.event.done");
    SpellsIff(name, "session.event.error");
    SpellsIff(name, "session.event.turn_committed");
    forall x, p ensures IsEvent(raw, x, p) ==> x == name {
      IsEventIff(raw, x, p);
    }
  }

  /******* Acceptance *******/

  lemma InOrderIff(raws: seq<Json>)
    ensures InOrder(raws) <==> WellOrdered(raws)
  {
    hide HasNumber, HasGeneration, Numbered, Number, Generation;
    forall i, n | 0 <= i < |raws| ensures HasNumber(raws[i], n) <==> Numbered(raws[i]) && Number(raws[i]) == n {
      NumberIff(raws[i], n);
    }
    forall i, g | 0 <= i < |raws| ensures HasGeneration(raws[i], g) <==> Generation(raws[i]) == Some(g) {
      GenerationIff(raws[i], g);
    }
    if InOrder(raws) {
      InOrderIsWellOrdered(raws);
    }
    if WellOrdered(raws) {
      WellOrderedIsInOrder(raws);
    }
  }

  lemma EndsIff(raws: seq<Json>)
    requires AllNumbered(raws)
    ensures Ends(raws) <==> Settled(ParsedAll(raws))
  {
    hide EndsTurn, CommitsTurn, Terminal, Commit, Parsed, Numbered;
    var events := ParsedAll(raws);
    forall i | 0 <= i < |raws|
      ensures EndsTurn(raws[i]) <==> Terminal(events[i])
      ensures CommitsTurn(raws[i]) <==> Commit(events[i])
    {
      EndsTurnIff(raws[i]);
    }
    EndsTransfer(raws, events);
  }

  lemma EndsTransfer(raws: seq<Json>, events: seq<Event>)
    requires |raws| == |events|
    requires forall i :: 0 <= i < |raws| ==> (EndsTurn(raws[i]) <==> Terminal(events[i]))
    requires forall i :: 0 <= i < |raws| ==> (CommitsTurn(raws[i]) <==> Commit(events[i]))
    ensures Ends(raws) <==> Settled(events)
  {
    hide EndsTurn, CommitsTurn, Terminal, Commit;
    forall c: nat | c < |raws| ensures CommitsAll(raws, c) <==> FollowsTerminals(events, c) {
    }
  }

  lemma NoForeignIff(raws: seq<Json>, task: Text, turn: Text)
    requires AllNumbered(raws)
    ensures NoForeignEvent(raws, task, turn) <==>
      forall i :: 0 <= i < |raws| ==> Agrees(ParsedAll(raws)[i], task, turn)
  {
    hide IsEvent, HasNumber, Foreign, Agrees, Retained, Number, Numbered;
    forall i | 0 <= i < |raws|
      ensures IsEvent(raws[i], Parsed(raws[i]).name, Parsed(raws[i]).payload)
      ensures Foreign(Parsed(raws[i]).payload, task, turn) <==> !Agrees(Parsed(raws[i]), task, turn)
    {
      ParsedIsRaw(raws[i]);
      ForeignIff(Parsed(raws[i]), task, turn);
    }
    forall i, x, p | 0 <= i < |raws| && IsEvent(raws[i], x, p) ensures p == ParsedAll(raws)[i].payload {
      IsEventIff(raws[i], x, p);
    }
    if NoForeignEvent(raws, task, turn) {
      forall i | 0 <= i < |raws| ensures Agrees(ParsedAll(raws)[i], task, turn) {
        assert IsEvent(raws[i], Parsed(raws[i]).name, Parsed(raws[i]).payload);
      }
    }
  }

  lemma WellOrderedIsInOrder(raws: seq<Json>)
    requires WellOrdered(raws)
    ensures InOrder(raws)
  {
    hide HasNumber, HasGeneration, Numbered, Number, Generation;
    forall i | 0 <= i < |raws| ensures Positive(raws[i]) {
      NumberIff(raws[i], Number(raws[i]));
    }
    forall i, j, m, n | 0 <= i < j < |raws| && HasNumber(raws[i], m) && HasNumber(raws[j], n) ensures m < n {
      NumberIff(raws[i], m);
      NumberIff(raws[j], n);
    }
    forall i, j, g, h | 0 <= i < |raws| && 0 <= j < |raws| && HasGeneration(raws[i], g) && HasGeneration(raws[j], h)
      ensures g == h
    {
      GenerationIff(raws[i], g);
      GenerationIff(raws[j], h);
      assert !Clash(raws[i], raws[j]);
    }
  }

  lemma InOrderIsWellOrdered(raws: seq<Json>)
    requires InOrder(raws)
    requires forall i, n :: 0 <= i < |raws| ==> (HasNumber(raws[i], n) <==> Numbered(raws[i]) && Number(raws[i]) == n)
    requires forall i, g :: 0 <= i < |raws| ==> (HasGeneration(raws[i], g) <==> Generation(raws[i]) == Some(g))
    ensures WellOrdered(raws)
  {
    hide HasNumber, HasGeneration, Numbered, Number, Generation;
    forall i | 0 <= i < |raws| ensures Numbered(raws[i]) && Number(raws[i]) > 0 {
      var n :| n > 0 && HasNumber(raws[i], n);
    }
    forall i, j | 0 <= i < j < |raws| ensures Number(raws[i]) < Number(raws[j]) {
      assert HasNumber(raws[i], Number(raws[i])) && HasNumber(raws[j], Number(raws[j]));
    }
    forall i | 0 <= i < |raws| && Generation(raws[i]).Some?
      ensures HasGeneration(raws[i], Generation(raws[i]).value)
    {
    }
  }

  /** `raws` is an acceptable stream for `task` and `turn`. */
  ghost predicate Acceptable(raws: seq<Json>, task: Text, turn: Text) {
    raws != [] && InOrder(raws) && NoForeignEvent(raws, task, turn) && Ends(raws)
  }

  /** A replay export is accepted exactly when the events it lists are acceptable. */
  lemma EvidenceIff(value: Json, task: Text, turn: Text)
    ensures Evidence(value, task, turn) <==> exists raws :: Lists(value, raws) && Acceptable(raws, task, turn)
  {
    hide Lists, InOrder, NoForeignEvent, Ends, WellOrdered, Settled, Agrees, Numbered, Parsed, RawEvents;
    forall raws ensures Lists(value, raws) <==> RawEvents(value) == Some(raws) {
      ListsIff(value, raws);
    }
    if RawEvents(value).Some? {
      var raws := RawEvents(value).value;
      assert Lists(value, raws);
      InOrderIff(raws);
      if WellOrdered(raws) && raws != [] {
        assert Accepted(value);
        EndsIff(raws);
        NoForeignIff(raws, task, turn);
      }
    }
  }
}
