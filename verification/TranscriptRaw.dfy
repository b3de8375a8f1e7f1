/**
 The transcript as the raw history document gives it: which message answers a turn, where its
 reasoning, segments and texts stand, and which segments refer to a tool by which fields.
 */
module TranscriptRaw {
  import opened Common
  import opened Utf16
  import opened BackfillEvents
  import opened BackfillRaw
  import opened BackfillTranscript

  /** `m` holds `v` under `k`, or has no `k` and holds `v` under `l`. */
  ghost predicate HoldsEither(m: Fields, k: Key, l: Key, v: Json) {
    Holds(m, k, v) || (k !in m && Holds(m, l, v))
  }

  /******* The message *******/

  ghost predicate NamesTurn(m: Fields, turn: Text) {
    || (exists c :: Holds(m, TurnContextKey, Obj(c)) && Holds(c, TurnIdKey, Str(turn)))
    || ((forall c :: Holds(m, TurnContextKey, Obj(c)) ==> TurnIdKey !in c) && Holds(m, TurnIdKey, Str(turn)))
  }

  /** An assistant message of the turn, which its context names first, with the wanted id if one is wanted. */
  ghost predicate AnswersTurn(raw: Json, turn: Text, wanted: Option<Text>) {
    && raw.Obj?
    && (exists role :: Spells(role, "assistant") && Holds(raw.fields, RoleKey, Str(role)))
    && NamesTurn(raw.fields, turn)
    && (wanted.Some? ==> HoldsEither(raw.fields, MessageIdKey, IdKey, Str(wanted.value)))
  }

  lemma RoleIff(m: Fields)
    ensures (exists role :: Spells(role, "assistant") && Holds(m, RoleKey, Str(role))) <==>
      Get(m, RoleKey) == Str(ASSISTANT)
  {
    SpellsIff(ASSISTANT, "assistant");
    forall role ensures Spells(role, "assistant") <==> role == ASSISTANT {
      SpellsIff(role, "assistant");
    }
  }

  lemma NamesTurnIff(m: Fields, turn: Text)
    ensures var context := if Get(m, TurnContextKey).Obj? then Get(m, TurnContextKey).fields else map[];
      NamesTurn(m, turn) <==> GetOr(context, TurnIdKey, Get(m, TurnIdKey)) == Str(turn)
  {
    if Get(m, TurnContextKey).Obj? {
      assert Holds(m, TurnContextKey, Obj(Get(m, TurnContextKey).fields));
    }
  }

  lemma EitherIff(m: Fields, k: Key, l: Key, v: Json)
    requires v != Null
    ensures HoldsEither(m, k, l, v) <==> GetOr(m, k, Get(m, l)) == v
  {
  }

  lemma MatchesIff(raw: Json, turn: Text, wanted: Option<Text>)
    ensures Matches(raw, turn, wanted) <==> AnswersTurn(raw, turn, wanted)
  {
    hide NamesTurn, HoldsEither, Holds, Get, GetOr, Spells;
    if raw.Obj? {
      RoleIff(raw.fields);
      NamesTurnIff(raw.fields, turn);
      if wanted.Some? {
        EitherIff(raw.fields, MessageIdKey, IdKey, Str(wanted.value));
      }
    }
  }

  /** The answer is the one message of the history that answers the turn. */
  lemma OneAnswerIff(history: Json, turn: Text, wanted: Option<Text>, message: Fields)
    ensures OneAnswer(history, turn, wanted, message) <==>
      exists messages, i: nat :: SoleAnswer(history, turn, wanted, message, messages, i)
  {
    hide Matches, AnswersTurn;
    forall raw ensures Matches(raw, turn, wanted) <==> AnswersTurn(raw, turn, wanted) {
      MatchesIff(raw, turn, wanted);
    }
    if OneAnswer(history, turn, wanted, message) {
      var messages := Get(history.fields, MessagesKey).items;
      var i: nat :| OnlyMatch(messages, i, turn, wanted) && message == messages[i].fields;
      assert SoleAnswer(history, turn, wanted, message, messages, i);
    }
    if messages, i: nat :| SoleAnswer(history, turn, wanted, message, messages, i) {
      assert OnlyMatch(Get(history.fields, MessagesKey).items, i, turn, wanted);
    }
  }

  ghost predicate SoleAnswer(history: Json, turn: Text, wanted: Option<Text>, message: Fields,
                             messages: seq<Json>, i: nat) {
    && history.Obj? && Holds(history.fields, MessagesKey, List(messages))
    && i < |messages| && messages[i] == Obj(message)
    && forall j :: 0 <= j < |messages| ==> (AnswersTurn(messages[j], turn, wanted) <==> j == i)
  }

  /******* Its reasoning and segments *******/

  /** `reasoning_content` unless it is null, else the `text` of `reasoning`, else nothing. */
  ghost predicate Reasons(m: Fields, t: Text) {
    || Holds(m, ReasoningContentKey, Str(t))
    || (Silent(m) && exists r :: Holds(m, ReasoningKey, Obj(r)) && Holds(r, TextKey, Str(t)))
    || (Silent(m) && t == [] && forall r :: Holds(m, ReasoningKey, Obj(r)) ==> TextKey !in r)
  }

  ghost predicate Silent(m: Fields) {
    ReasoningContentKey !in m || m[ReasoningContentKey] == Null
  }

  lemma ReasoningIff(m: Fields, t: Text)
    ensures ReasoningText(m) == Str(t) <==> Reasons(m, t)
  {
    if Get(m, ReasoningKey).Obj? {
      assert Holds(m, ReasoningKey, Obj(Get(m, ReasoningKey).fields));
    }
  }

  /** `raws` is the non-empty list under `k`. */
  ghost predicate Carries(m: Fields, k: Key, raws: seq<Json>) {
    raws != [] && Holds(m, k, List(raws))
  }

  /** The segments: a non-empty `tool_calls`, else a non-empty `timeline`, else none. */
  ghost predicate HasSegments(m: Fields, raws: seq<Json>) {
    || Carries(m, ToolCallsKey, raws)
    || ((forall xs :: !Carries(m, ToolCallsKey, xs)) && Carries(m, TimelineKey, raws))
    || ((forall xs :: !Carries(m, ToolCallsKey, xs) && !Carries(m, TimelineKey, xs)) && raws == [])
  }

  ghost function ListOf(segments: seq<Fields>): seq<Json> {
    seq(|segments|, i requires 0 <= i < |segments| => Obj(segments[i]))
  }

  lemma CarriesIff(m: Fields, k: Key)
    ensures forall raws :: Carries(m, k, raws) <==> Get(m, k) == List(raws) && raws != []
  {
  }

  lemma RecordsIff(raws: seq<Json>, segments: seq<Fields>)
    ensures Records(raws) == Ok(segments) <==> raws == ListOf(segments)
  {
    if raws == ListOf(segments) {
      assert forall i :: 0 <= i < |raws| ==> raws[i] == Obj(segments[i]);
      assert Records(raws).Ok?;
      assert Records(raws).value == segments;
    }
  }

  /** The segments are read exactly when all of them are objects. */
  lemma SegmentsIff(m: Fields, segments: seq<Fields>)
    ensures Segments(m) == Ok(segments) <==> HasSegments(m, ListOf(segments))
  {
    hide Carries, Get, Records;
    CarriesIff(m, ToolCallsKey);
    CarriesIff(m, TimelineKey);
    var raws := ListOf(segments);
    if Get(m, ToolCallsKey).List? && Get(m, ToolCallsKey).items != [] {
      RecordsIff(Get(m, ToolCallsKey).items, segments);
      assert Carries(m, ToolCallsKey, Get(m, ToolCallsKey).items);
    } else if Get(m, TimelineKey).List? && Get(m, TimelineKey).items != [] {
      RecordsIff(Get(m, TimelineKey).items, segments);
      assert Carries(m, TimelineKey, Get(m, TimelineKey).items);
    }
  }

  /******* Its texts *******/

  /** A segment of type "text" whose `text`, or `raw` if it has none, is the non-empty string `t`. */
  ghost predicate Says(segment: Fields, t: Text) {
    && t != []
    && (exists kind :: Spells(kind, "text") && Holds(segment, TypeKey, Str(kind)))
    && HoldsEither(segment, TextKey, RawKey, Str(t))
  }

  lemma SaysIff(segment: Fields, t: Text)
    ensures Says(segment, t) <==> IsText(segment) && TextOf(segment) == Str(t)
  {
    SpellsIff(TEXT, "text");
    forall kind ensures Spells(kind, "text") <==> kind == TEXT {
      SpellsIff(kind, "text");
    }
    hide Spells;
  }

  /** `texts` are, in order, what the segments at the positions `at` say; no other segment says anything. */
  ghost predicate Spoken(segments: seq<Fields>, texts: seq<Text>, at: seq<nat>) {
    && |at| == |texts|
    && (forall k :: 0 <= k < |at| ==> at[k] < |segments| && Says(segments[at[k]], texts[k]))
    && (forall k, l :: 0 <= k < l < |at| ==> at[k] < at[l])
    && (forall i: nat, t :: i < |segments| && Says(segments[i], t) ==> i in at)
  }

  lemma {:induction false} TextsAreSpoken(segments: seq<Fields>) returns (at: seq<nat>)
    ensures Spoken(segments, TextSegments(segments), at)
  {
    hide Says, IsText, TextOf;
    if segments == [] {
      at := [];
    } else {
      var rest := TextsAreSpoken(segments[1..]);
      var texts := TextSegments(segments[1..]);
      var moved := seq(|rest|, k requires 0 <= k < |rest| => rest[k] + 1);
      at := (if IsText(segments[0]) then [0] else []) + moved;
      SpokenMore(segments, texts, rest, moved);
    }
  }

  /** The positions `at` of the tail, moved up by one, are those of the whole but for its head. */
  lemma SpokenMoved(segments: seq<Fields>, texts: seq<Text>, rest: seq<nat>, moved: seq<nat>)
    requires segments != [] && Spoken(segments[1..], texts, rest)
    requires |moved| == |rest| && forall k :: 0 <= k < |rest| ==> moved[k] == rest[k] + 1
    ensures forall k :: 0 <= k < |moved| ==> 0 < moved[k] < |segments| && Says(segments[moved[k]], texts[k])
    ensures forall i: nat, t :: 0 < i < |segments| && Says(segments[i], t) ==> i in moved
  {
    hide Says;
    forall k | 0 <= k < |moved| ensures 0 < moved[k] < |segments| && Says(segments[moved[k]], texts[k]) {
      assert segments[1..][rest[k]] == segments[moved[k]];
    }
    forall i: nat, t | 0 < i < |segments| && Says(segments[i], t) ensures i in moved {
      assert segments[1..][i - 1] == segments[i];
      var k :| 0 <= k < |rest| && rest[k] == i - 1;
      assert moved[k] == i;
    }
  }

  lemma SpokenMore(segments: seq<Fields>, texts: seq<Text>, rest: seq<nat>, moved: seq<nat>)
    requires segments != [] && Spoken(segments[1..], texts, rest)
    requires |moved| == |rest| && forall k :: 0 <= k < |rest| ==> moved[k] == rest[k] + 1
    ensures Spoken(segments, (if IsText(segments[0]) then [TextOf(segments[0]).text] else []) + texts,
                   (if IsText(segments[0]) then [0] else []) + moved)
  {
    SpokenMoved(segments, texts, rest, moved);
    HeadSays(segments[0]);
    hide Says, TextOf;
    if IsText(segments[0]) {
      SpokenFirst(segments, TextOf(segments[0]).text, texts, moved);
    } else {
      SpokenRest(segments, texts, moved);
      assert [] + texts == texts && [] + moved == moved;
    }
  }

  lemma HeadSays(segment: Fields)
    ensures IsText(segment) ==> Says(segment, TextOf(segment).text)
    ensures !IsText(segment) ==> forall t :: !Says(segment, t)
  {
    hide Says;
    forall t ensures Says(segment, t) <==> IsText(segment) && TextOf(segment) == Str(t) {
      SaysIff(segment, t);
    }
  }

  lemma SpokenRest(segments: seq<Fields>, texts: seq<Text>, moved: seq<nat>)
    requires segments != [] && |moved| == |texts| && forall t :: !Says(segments[0], t)
    requires forall k :: 0 <= k < |moved| ==> 0 < moved[k] < |segments| && Says(segments[moved[k]], texts[k])
    requires forall k, l :: 0 <= k < l < |moved| ==> moved[k] < moved[l]
    requires forall i: nat, u :: 0 < i < |segments| && Says(segments[i], u) ==> i in moved
    ensures Spoken(segments, texts, moved)
  {
    hide Says;
  }

  lemma SpokenFirst(segments: seq<Fields>, t: Text, texts: seq<Text>, moved: seq<nat>)
    requires segments != [] && |moved| == |texts| && Says(segments[0], t)
    requires forall k :: 0 <= k < |moved| ==> 0 < moved[k] < |segments| && Says(segments[moved[k]], texts[k])
    requires forall k, l :: 0 <= k < l < |moved| ==> moved[k] < moved[l]
    requires forall i: nat, u :: 0 < i < |segments| && Says(segments[i], u) ==> i in moved
    ensures Spoken(segments, [t] + texts, [0] + moved)
  {
    hide Says;
  }

  /** The answer's texts: what its segments say; if they say nothing, its own `text` unless empty. */
  ghost predicate Answers(m: Fields, segments: seq<Fields>, texts: seq<Text>) {
    || (texts != [] && exists at :: Spoken(segments, texts, at))
    || (Wordless(segments) && |texts| == 1 && HoldsName(m, TextKey, texts[0]))
    || (Wordless(segments) && texts == [] && forall t :: !HoldsName(m, TextKey, t))
  }

  ghost predicate Wordless(segments: seq<Fields>) {
    forall i, t :: 0 <= i < |segments| ==> !Says(segments[i], t)
  }

  lemma SpokenIsUnique(segments: seq<Fields>, a: seq<Text>, at: seq<nat>, b: seq<Text>, bt: seq<nat>)
    requires Spoken(segments, a, at) && Spoken(segments, b, bt)
    ensures at == bt && a == b
  {
    hide Says;
    forall x: nat ensures x in at <==> x in bt {
      if x in at {
        var k :| 0 <= k < |at| && at[k] == x;
        assert Says(segments[x], a[k]);
      }
      if x in bt {
        var k :| 0 <= k < |bt| && bt[k] == x;
        assert Says(segments[x], b[k]);
      }
    }
    RisingIsUnique(at, bt);
    forall k | 0 <= k < |a| ensures a[k] == b[k] {
      SaysOnce(segments[at[k]], a[k], b[k]);
    }
  }

  lemma SaysOnce(segment: Fields, t: Text, u: Text)
    requires Says(segment, t) && Says(segment, u)
    ensures t == u
  {
  }

  /** A rising sequence is determined by its elements. */
  lemma {:induction false} RisingIsUnique(a: seq<nat>, b: seq<nat>)
    requires forall k, l :: 0 <= k < l < |a| ==> a[k] < a[l]
    requires forall k, l :: 0 <= k < l < |b| ==> b[k] < b[l]
    requires forall x :: x in a <==> x in b
    ensures a == b
  {
    if a != [] {
      assert a[0] in a;
    }
    if b != [] {
      assert b[0] in b;
    }
    if a != [] && b != [] {
      assert a[0] == b[0];
      forall x ensures x in a[1..] <==> x in b[1..] {
        RestOf(a, x);
        RestOf(b, x);
      }
      RisingIsUnique(a[1..], b[1..]);
      assert a == [a[0]] + a[1..] && b == [b[0]] + b[1..];
    }
  }

  lemma RestOf(a: seq<nat>, x: nat)
    requires a != [] && forall k, l :: 0 <= k < l < |a| ==> a[k] < a[l]
    ensures x in a[1..] <==> x in a && x != a[0]
  {
    if x in a[1..] {
      var k :| 0 <= k < |a[1..]| && a[1..][k] == x;
      assert a[k + 1] == x;
    }
    if x in a && x != a[0] {
      var k :| 0 <= k < |a| && a[k] == x;
      assert a[1..][k - 1] == x;
    }
  }

  lemma AnswerTextsIff(m: Fields, segments: seq<Fields>, texts: seq<Text>)
    ensures AnswerTexts(m, segments) == texts <==> Answers(m, segments, texts)
  {
    hide Says, HoldsName, Get, TextSegments;
    NameIff(m, TextKey);
    var said := TextSegments(segments);
    var at := TextsAreSpoken(segments);
    WordlessIff(segments, said, at);
    if bt :| Spoken(segments, texts, bt) {
      SpokenIsUnique(segments, said, at, texts, bt);
    }
  }

  lemma WordlessIff(segments: seq<Fields>, texts: seq<Text>, at: seq<nat>)
    requires Spoken(segments, texts, at)
    ensures Wordless(segments) <==> texts == []
  {
    hide Says;
    if texts != [] {
      assert Says(segments[at[0]], texts[0]);
    }
  }

  /******* Its tools *******/

  /** Empty, zero, false or null. */
  predicate Blank(j: Json) {
    match j
    case Null => true
    case Bool(b) => !b
    case Num(n) => n == 0
    case Fraction(x) => x == 0.0
    case Str(t) => |t| == 0
    case List(xs) => |xs| == 0
    case Obj(m) => |m| == 0
  }

  /** A segment whose type says tool use, tool result or nothing. */
  ghost predicate MayNameTool(segment: Fields) {
    || TypeKey !in segment || Blank(segment[TypeKey])
    || exists kind :: Holds(segment, TypeKey, Str(kind)) && (Spells(kind, "tool_use") || Spells(kind, "tool_result"))
  }

  ghost predicate HoldsToolName(segment: Fields, name: Text) {
    HoldsEither(segment, NameKey, ToolNameKey, Str(name))
  }

  ghost predicate HoldsToolId(segment: Fields, id: Text) {
    || Holds(segment, ToolUseIdKey, Str(id))
    || (ToolUseIdKey !in segment && HoldsEither(segment, ToolUseIdCamelKey, IdKey, Str(id)))
  }

  ghost predicate RoutesOnly(segment: Fields) {
    exists name :: HoldsToolName(segment, name) && Spells(name, "router_control")
  }

  /** The segment stands for a use of tool `name` with identity `id`. */
  ghost predicate UsesTool(segment: Fields, id: Text, name: Text) {
    && MayNameTool(segment) && !RoutesOnly(segment)
    && name != [] && HoldsToolName(segment, name) && HoldsToolId(segment, id)
  }

  lemma MayNameToolIff(segment: Fields)
    ensures MayNameTool(segment) <==>
      var kind := Get(segment, TypeKey); Falsy(kind) || kind == Str(TOOL_USE) || kind == Str(TOOL_RESULT)
  {
    BlankIff(Get(segment, TypeKey));
    hide Blank, Falsy;
    forall kind ensures Spells(kind, "tool_use") <==> kind == TOOL_USE {
      SpellsIff(kind, "tool_use");
    }
    forall kind ensures Spells(kind, "tool_result") <==> kind == TOOL_RESULT {
      SpellsIff(kind, "tool_result");
    }
    hide Spells;
    assert Falsy(Null) by { BlankIff(Null); }
  }

  lemma BlankIff(j: Json)
    ensures Blank(j) <==> Falsy(j)
    ensures Blank(Null)
  {
    if j.Obj? && |j.fields| == 0 {
      assert j.fields == map[];
    }
  }

  lemma ToolNameIff(segment: Fields)
    ensures var j := GetOr(segment, NameKey, Get(segment, ToolNameKey));
      && (forall name :: HoldsToolName(segment, name) <==> j == Str(name))
      && (RoutesOnly(segment) <==> j == Str(ROUTER_CONTROL))
  {
    forall name ensures HoldsToolName(segment, name) <==>
      GetOr(segment, NameKey, Get(segment, ToolNameKey)) == Str(name)
    {
      EitherIff(segment, NameKey, ToolNameKey, Str(name));
    }
    hide HoldsToolName, Get, GetOr;
    forall name ensures Spells(name, "router_control") <==> name == ROUTER_CONTROL {
      SpellsIff(name, "router_control");
    }
    hide Spells;
  }

  lemma ToolIdIff(segment: Fields, id: Text)
    ensures HoldsToolId(segment, id) <==>
      GetOr(segment, ToolUseIdKey, GetOr(segment, ToolUseIdCamelKey, Get(segment, IdKey))) == Str(id)
  {
  }

  /** A tool reference is read exactly from a segment that uses a tool, and skipped exactly as stated. */
  lemma ReferenceIff(segment: Fields, id: Text, name: Text)
    ensures ReferenceOf(segment) == Tool(id, name) <==> UsesTool(segment, id, name)
    ensures ReferenceOf(segment) == Skipped <==> !MayNameTool(segment) || RoutesOnly(segment)
  {
    hide MayNameTool, RoutesOnly, HoldsToolName, HoldsToolId, Get, GetOr, Falsy;
    MayNameToolIff(segment);
    ToolNameIff(segment);
    ToolIdIff(segment, id);
  }

  /******* The whole check *******/

  ghost predicate Uses(segments: seq<Fields>, id: Text, name: Text) {
    exists i :: 0 <= i < |segments| && UsesTool(segments[i], id, name)
  }

  /** It may name a tool, and the fields that would name it do not. */
  ghost predicate Unclear(segment: Fields) {
    MayNameTool(segment) && !RoutesOnly(segment) && forall id, name :: !UsesTool(segment, id, name)
  }

  /** Every segment is passed over or uses a tool, and no identity goes with two names. */
  ghost predicate ClearTools(segments: seq<Fields>) {
    && (forall i :: 0 <= i < |segments| ==> !Unclear(segments[i]))
    && (forall id, a, b :: Uses(segments, id, a) && Uses(segments, id, b) ==> a == b)
  }

  /** The snapshot measures the message's reasoning and texts, and lists exactly the tools it uses. */
  ghost predicate Fits(s: Snapshot, m: Fields, reasoning: Text, segments: seq<Fields>, texts: seq<Text>) {
    && Reasons(m, reasoning) && Utf16Length(reasoning) == Some(s.reasoningLength)
    && HasSegments(m, ListOf(segments)) && Answers(m, segments, texts)
    && |TextEntries(s.entries)| == |texts|
    && (forall e :: e in s.entries && e.TextEntry? ==> MeasuresText(e, texts))
    && ClearTools(segments)
    && (forall id, name :: ToolEntry(id, name) in s.entries <==> Uses(segments, id, name))
  }

  lemma NamedIff(segments: seq<Fields>, id: Text, name: Text)
    ensures Named(segments, id, name) <==> Uses(segments, id, name)
  {
    hide ReferenceOf, UsesTool;
    forall i | 0 <= i < |segments|
      ensures ReferenceOf(segments[i]) == Tool(id, name) <==> UsesTool(segments[i], id, name)
    {
      ReferenceIff(segments[i], id, name);
    }
  }

  lemma StableIff(segment: Fields)
    ensures ReferenceOf(segment).Unstable? <==> Unclear(segment)
  {
    hide ReferenceOf, UsesTool, MayNameTool, RoutesOnly;
    forall id, name ensures ReferenceOf(segment) == Tool(id, name) <==> UsesTool(segment, id, name) {
      ReferenceIff(segment, id, name);
    }
    ReferenceIff(segment, [], []);
    var reference := ReferenceOf(segment);
    if reference.Tool? {
      assert UsesTool(segment, reference.id, reference.name);
    }
    if reference.Skipped? {
      assert !MayNameTool(segment) || RoutesOnly(segment);
    }
  }

  lemma ConflictIff(segments: seq<Fields>)
    ensures Conflict(segments) <==> exists id, a, b :: Named(segments, id, a) && Named(segments, id, b) && a != b
  {
    hide ReferenceOf;
    if Conflict(segments) {
      var i, j :| 0 <= i < |segments| && 0 <= j < |segments|
                  && ClashingNames(ReferenceOf(segments[i]), ReferenceOf(segments[j]));
      var x, y := ReferenceOf(segments[i]), ReferenceOf(segments[j]);
      assert Named(segments, x.id, x.name) && Named(segments, x.id, y.name);
    }
    if id, a, b :| Named(segments, id, a) && Named(segments, id, b) && a != b {
      var i :| 0 <= i < |segments| && ReferenceOf(segments[i]) == Tool(id, a);
      var j :| 0 <= j < |segments| && ReferenceOf(segments[j]) == Tool(id, b);
      assert ClashingNames(ReferenceOf(segments[i]), ReferenceOf(segments[j]));
    }
  }

  lemma ClearToolsIff(segments: seq<Fields>)
    ensures Stable(segments) && !Conflict(segments) <==> ClearTools(segments)
  {
    hide ReferenceOf, UsesTool, MayNameTool, RoutesOnly, Named, Uses, Conflict;
    ConflictIff(segments);
    forall id, name ensures Named(segments, id, name) <==> Uses(segments, id, name) {
      NamedIff(segments, id, name);
    }
    forall i | 0 <= i < |segments| ensures ReferenceOf(segments[i]).Unstable? <==> Unclear(segments[i]) {
      StableIff(segments[i]);
    }
  }

  /** The reference check accepts a normal snapshot exactly when it fits the raw message. */
  lemma DescribesIff(s: Snapshot, m: Fields)
    requires Normal(s.entries)
    ensures References(s, m) <==> exists reasoning, segments, texts :: Fits(s, m, reasoning, segments, texts)
  {
    ReferencesAreDescriptions(s, m);
    hide References, Normal, Stable, Conflict, ReasoningText, Segments, AnswerTexts, TextEntries;
    hide Named, Uses, ClearTools, Reasons, HasSegments, Answers, MeasuresText;
    forall t ensures ReasoningText(m) == Str(t) <==> Reasons(m, t) {
      ReasoningIff(m, t);
    }
    forall segments ensures Segments(m) == Ok(segments) <==> HasSegments(m, ListOf(segments)) {
      SegmentsIff(m, segments);
    }
    forall segments, texts ensures AnswerTexts(m, segments) == texts <==> Answers(m, segments, texts) {
      AnswerTextsIff(m, segments, texts);
    }
    forall segments ensures Stable(segments) && !Conflict(segments) <==> ClearTools(segments) {
      ClearToolsIff(segments);
    }
    forall segments, id, name ensures Named(segments, id, name) <==> Uses(segments, id, name) {
      NamedIff(segments, id, name);
    }
    if Describes(s, m) {
      var segments := Segments(m).value;
      assert Fits(s, m, ReasoningText(m).text, segments, AnswerTexts(m, segments));
    }
  }
}
