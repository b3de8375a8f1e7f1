/**
 The transcript side of the activity backfill: a snapshot refers to the committed assistant
 message by UTF-16 lengths and tool identities, and is accepted only when they agree. The check
 sorts text entries and builds a tool map, so it sees entries by content and not by position.
 */
module BackfillTranscript {
  import opened Common
  import opened Utf16
  import opened BackfillEvents
  import opened Sorting

  const ASSISTANT: Text := Lit("assistant")
  const TEXT: Text := Lit("text")
  const TOOL_USE: Text := Lit("tool_use")
  const TOOL_RESULT: Text := Lit("tool_result")
  const ROUTER_CONTROL: Text := Lit("router_control")

  /** Snapshot entries in normal form: text and tool segments carry their references. */
  datatype Entry =
    | TextEntry(textIndex: nat, utf16Length: nat)
    | ToolEntry(toolUseId: Text, name: Text)
    | OtherEntry

  datatype Snapshot = Snapshot(complete: bool, reasoningLength: nat, entries: seq<Entry>)

  /******* Finding the message *******/

  predicate Matches(raw: Json, turn: Text, wanted: Option<Text>): (m: bool)
    ensures m ==> raw.Obj?
  {
    && raw.Obj?
    && Get(raw.fields, RoleKey) == Str(ASSISTANT)
    && var context := if Get(raw.fields, TurnContextKey).Obj? then Get(raw.fields, TurnContextKey).fields else map[];
      && GetOr(context, TurnIdKey, Get(raw.fields, TurnIdKey)) == Str(turn)
      && (wanted.Some? ==> GetOr(raw.fields, MessageIdKey, Get(raw.fields, IdKey)) == Str(wanted.value))
  }

  ghost predicate OnlyMatch(messages: seq<Json>, i: nat, turn: Text, wanted: Option<Text>) {
    i < |messages| && forall j :: 0 <= j < |messages| ==> (Matches(messages[j], turn, wanted) <==> j == i)
  }

  /** `at` lists, in order, the positions of the matches among the first `n` messages. */
  ghost predicate Found(messages: seq<Json>, n: nat, turn: Text, wanted: Option<Text>, at: seq<nat>) {
    && n <= |messages|
    && (forall k :: 0 <= k < |at| ==> at[k] < n && Matches(messages[at[k]], turn, wanted))
    && (forall k, l :: 0 <= k < l < |at| ==> at[k] < at[l])
    && (forall j: nat :: j < n && Matches(messages[j], turn, wanted) ==> j in at)
  }

  method AssistantFromHistory(value: Json, turn: Text, wanted: Option<Text>) returns (r: Result<Fields>)
    ensures r.Ok? ==> value.Obj? && Get(value.fields, MessagesKey).List?
    ensures r.Ok? ==> exists i: nat :: OnlyMatch(Get(value.fields, MessagesKey).items, i, turn, wanted)
                                    && r.value == Get(value.fields, MessagesKey).items[i].fields
    ensures value.Obj? && Get(value.fields, MessagesKey).List? && r.Err? ==>
      forall i: nat :: !OnlyMatch(Get(value.fields, MessagesKey).items, i, turn, wanted)
  {
    hide Matches, Found, OnlyMatch;
    if !value.Obj? || !Get(value.fields, MessagesKey).List? {
      return Err(NoMessages);
    }
    var messages := Get(value.fields, MessagesKey).items;
    var matches: seq<Fields> := [];
    ghost var at: seq<nat> := [];
    FoundNone(messages, turn, wanted);
    for i := 0 to |messages|
      invariant Found(messages, i, turn, wanted, at)
      invariant forall k :: 0 <= k < |at| ==> at[k] < |messages| && messages[at[k]].Obj?
      invariant |matches| == |at| && forall k :: 0 <= k < |at| ==> matches[k] == messages[at[k]].fields
    {
      FoundMore(messages, i, turn, wanted, at);
      if Matches(messages[i], turn, wanted) {
        matches, at := matches + [messages[i].fields], at + [i];
      }
    }
    if |matches| != 1 {
      NotOne(messages, turn, wanted, at);
      return Err(NotOneMessage);
    }
    One(messages, turn, wanted, at);
    return Ok(matches[0]);
  }

  lemma FoundNone(messages: seq<Json>, turn: Text, wanted: Option<Text>)
    ensures Found(messages, 0, turn, wanted, [])
  {
  }

  lemma FoundMore(messages: seq<Json>, n: nat, turn: Text, wanted: Option<Text>, at: seq<nat>)
    requires n < |messages| && Found(messages, n, turn, wanted, at)
    ensures Found(messages, n + 1, turn, wanted, if Matches(messages[n], turn, wanted) then at + [n] else at)
  {
    hide Matches;
  }

  lemma One(messages: seq<Json>, turn: Text, wanted: Option<Text>, at: seq<nat>)
    requires Found(messages, |messages|, turn, wanted, at) && |at| == 1
    ensures OnlyMatch(messages, at[0], turn, wanted)
  {
    hide Matches;
  }

  lemma NotOne(messages: seq<Json>, turn: Text, wanted: Option<Text>, at: seq<nat>)
    requires Found(messages, |messages|, turn, wanted, at) && |at| != 1
    ensures forall i: nat :: !OnlyMatch(messages, i, turn, wanted)
  {
    if at == [] {
      forall i: nat | i < |messages| ensures !OnlyMatch(messages, i, turn, wanted) {
        assert !Matches(messages[i], turn, wanted);
      }
    } else {
      assert Matches(messages[at[0]], turn, wanted) && Matches(messages[at[1]], turn, wanted);
    }
  }

  /******* Reading the message *******/

  function ReasoningText(message: Fields): Json {
    if Get(message, ReasoningContentKey) != Null then Get(message, ReasoningContentKey)
    else if Get(message, ReasoningKey).Obj? then GetOr(Get(message, ReasoningKey).fields, TextKey, Str([]))
    else Str([])
  }

  function Records(items: seq<Json>): Result<seq<Fields>> {
    if exists i :: 0 <= i < |items| && !items[i].Obj? then Err(NonObjectSegment)
    else Ok(seq(|items|, i requires 0 <= i < |items| => items[i].fields))
  }

  function Segments(message: Fields): Result<seq<Fields>> {
    if Get(message, ToolCallsKey).List? && Get(message, ToolCallsKey).items != []
    then Records(Get(message, ToolCallsKey).items)
    else if Get(message, TimelineKey).List? && Get(message, TimelineKey).items != []
    then Records(Get(message, TimelineKey).items)
    else Ok([])
  }

  function TextOf(segment: Fields): Json {
    GetOr(segment, TextKey, GetOr(segment, RawKey, Str([])))
  }

  predicate IsText(segment: Fields) {
    Get(segment, TypeKey) == Str(TEXT) && TextOf(segment).Str? && TextOf(segment).text != []
  }

  function TextSegments(segments: seq<Fields>): seq<Text> {
    if segments == [] then []
    else (if IsText(segments[0]) then [TextOf(segments[0]).text] else []) + TextSegments(segments[1..])
  }

  /** The texts of the answer; a message without text segments counts as one. */
  function AnswerTexts(message: Fields, segments: seq<Fields>): seq<Text> {
    if TextSegments(segments) != [] then TextSegments(segments)
    else if Get(message, TextKey).Str? && Get(message, TextKey).text != [] then [Get(message, TextKey).text]
    else []
  }

  /******* Tool identities *******/

  datatype Reference = Skipped | Unstable | Tool(id: Text, name: Text)

  /** Values Python's `or` passes over. */
  predicate Falsy(j: Json) {
    || j == Null || j == Bool(false) || j == Num(0) || j == Fraction(0.0)
    || j == Str([]) || j == List([]) || j == Obj(map[])
  }

  function ReferenceOf(segment: Fields): Reference {
    var kind := Get(segment, TypeKey);
    var name := GetOr(segment, NameKey, Get(segment, ToolNameKey));
    var id := GetOr(segment, ToolUseIdKey, GetOr(segment, ToolUseIdCamelKey, Get(segment, IdKey)));
    if !Falsy(kind) && kind != Str(TOOL_USE) && kind != Str(TOOL_RESULT) then Skipped
    else if name == Str(ROUTER_CONTROL) then Skipped
    else if !name.Str? || name.text == [] || !id.Str? then Unstable
    else Tool(id.text, name.text)
  }

  ghost predicate Named(segments: seq<Fields>, id: Text, name: Text) {
    exists i :: 0 <= i < |segments| && ReferenceOf(segments[i]) == Tool(id, name)
  }

  ghost predicate Stable(segments: seq<Fields>) {
    forall i :: 0 <= i < |segments| ==> !ReferenceOf(segments[i]).Unstable?
  }

  ghost predicate Conflict(segments: seq<Fields>) {
    exists i, j :: 0 <= i < |segments| && 0 <= j < |segments|
                && ClashingNames(ReferenceOf(segments[i]), ReferenceOf(segments[j]))
  }

  predicate ClashingNames(a: Reference, b: Reference) {
    a.Tool? && b.Tool? && a.id == b.id && a.name != b.name
  }

  /** `m` names exactly the tools of the first `n` segments. */
  ghost predicate Names(segments: seq<Fields>, m: map<Text, Text>) {
    && (forall i :: 0 <= i < |segments| && ReferenceOf(segments[i]).Tool? ==>
          Maps(m, ReferenceOf(segments[i]).id, ReferenceOf(segments[i]).name))
    && (forall id :: id in m ==> Named(segments, id, m[id]))
  }

  predicate Maps(m: map<Text, Text>, id: Text, name: Text) {
    id in m && m[id] == name
  }

  method TranscriptTools(segments: seq<Fields>) returns (r: Result<map<Text, Text>>)
    ensures r.Ok? <==> Stable(segments) && !Conflict(segments)
    ensures r.Ok? ==> Names(segments, r.value)
  {
    var tools: map<Text, Text> := map[];
    for i := 0 to |segments|
      invariant Stable(segments[..i]) && Names(segments[..i], tools)
    {
      var reference := ReferenceOf(segments[i]);
      assert segments[..i + 1] == segments[..i] + [segments[i]];
      match reference {
        case Skipped =>
          NamesSkip(segments[..i], segments[i], tools);
        case Unstable =>
          return Err(ToolIdentity);
        case Tool(id, name) =>
          if id in tools && tools[id] != name {
            assert Named(segments[..i], id, tools[id]);
            var j :| 0 <= j < i && ReferenceOf(segments[..i][j]) == Tool(id, tools[id]);
            assert ClashingNames(ReferenceOf(segments[i]), ReferenceOf(segments[j]));
            return Err(ToolConflict);
          }
          NamesMore(segments[..i], segments[i], tools);
          tools := tools[id := name];
      }
    }
    assert segments[..|segments|] == segments;
    return Ok(tools);
  }

  lemma NamesSkip(segments: seq<Fields>, segment: Fields, m: map<Text, Text>)
    requires Names(segments, m) && ReferenceOf(segment).Skipped?
    ensures Names(segments + [segment], m)
  {
    forall id | id in m ensures Named(segments + [segment], id, m[id]) {
      NamedLonger(segments, segment, id, m[id]);
    }
  }

  lemma NamedLonger(segments: seq<Fields>, segment: Fields, id: Text, name: Text)
    requires Named(segments, id, name)
    ensures Named(segments + [segment], id, name)
  {
    var i :| 0 <= i < |segments| && ReferenceOf(segments[i]) == Tool(id, name);
    assert (segments + [segment])[i] == segments[i];
  }

  lemma NamesMore(segments: seq<Fields>, segment: Fields, m: map<Text, Text>)
    requires Names(segments, m) && ReferenceOf(segment).Tool?
    requires ReferenceOf(segment).id in m ==> m[ReferenceOf(segment).id] == ReferenceOf(segment).name
    ensures Names(segments + [segment], m[ReferenceOf(segment).id := ReferenceOf(segment).name])
  {
    var more := m[ReferenceOf(segment).id := ReferenceOf(segment).name];
    assert (segments + [segment])[|segments|] == segment;
    forall id | id in more ensures Named(segments + [segment], id, more[id]) {
      if id != ReferenceOf(segment).id {
        NamedLonger(segments, segment, id, m[id]);
      }
    }
  }

  /******* The snapshot's own references *******/

  function TextEntries(entries: seq<Entry>): seq<Entry> {
    if entries == [] then []
    else (if entries[0].TextEntry? then [entries[0]] else []) + TextEntries(entries[1..])
  }

  predicate ByIndex(a: Entry, b: Entry) {
    (if a.TextEntry? then a.textIndex else 0) <= (if b.TextEntry? then b.textIndex else 0)
  }

  function SortedTexts(entries: seq<Entry>): seq<Entry> {
    Sorted(TextEntries(entries), ByIndex)
  }

  /** A dict comprehension: the last entry of an id wins. */
  function SnapshotTools(entries: seq<Entry>): map<Text, Text> {
    if entries == [] then map[]
    else
      var before, last := SnapshotTools(entries[..|entries| - 1]), entries[|entries| - 1];
      if last.ToolEntry? then before[last.toolUseId := last.name] else before
  }

  lemma {:induction false} TextEntriesAre(entries: seq<Entry>)
    ensures forall e :: e in TextEntries(entries) <==> e in entries && e.TextEntry?
  {
    if entries != [] {
      TextEntriesAre(entries[1..]);
    }
  }

  lemma SortedTextsAre(entries: seq<Entry>)
    ensures multiset(SortedTexts(entries)) == multiset(TextEntries(entries))
    ensures forall e :: e in SortedTexts(entries) <==> e in entries && e.TextEntry?
    ensures Ascending(SortedTexts(entries), ByIndex)
  {
    SortedKeeps(TextEntries(entries), ByIndex);
    SortedAscends(TextEntries(entries), ByIndex);
    SameElements(SortedTexts(entries), TextEntries(entries));
    TextEntriesAre(entries);
  }

  /******* The check *******/

  /** The sorted text entries measure the texts one for one. */
  ghost predicate Measures(sorted: seq<Entry>, texts: seq<Text>)
    requires forall e :: e in sorted ==> e.TextEntry?
  {
    |sorted| == |texts| && forall i :: 0 <= i < |texts| ==> Utf16Length(texts[i]) == Some(sorted[i].utf16Length)
  }

  /** What the snapshot has to say about the message. */
  ghost predicate References(s: Snapshot, message: Fields) {
    && ReasoningText(message).Str? && Utf16Length(ReasoningText(message).text) == Some(s.reasoningLength)
    && Segments(message).Ok?
    && (SortedTextsAre(s.entries); Measures(SortedTexts(s.entries), AnswerTexts(message, Segments(message).value)))
    && Stable(Segments(message).value) && !Conflict(Segments(message).value)
    && Names(Segments(message).value, SnapshotTools(s.entries))
  }

  lemma NamesIsUnique(segments: seq<Fields>, m: map<Text, Text>, n: map<Text, Text>)
    requires Names(segments, m) && Names(segments, n)
    ensures m == n
  {
    forall id | id in m ensures id in n && n[id] == m[id] {
      var i :| 0 <= i < |segments| && ReferenceOf(segments[i]) == Tool(id, m[id]);
    }
    forall id | id in n ensures id in m && n[id] == m[id] {
      var i :| 0 <= i < |segments| && ReferenceOf(segments[i]) == Tool(id, n[id]);
    }
  }

  method CompareTexts(sorted: seq<Entry>, texts: seq<Text>) returns (r: Result<()>)
    requires forall e :: e in sorted ==> e.TextEntry?
    ensures r.Ok? <==> Measures(sorted, texts)
  {
    if |sorted| != |texts| {
      return Err(TextCount);
    }
    for i := 0 to |texts|
      invariant forall j :: 0 <= j < i ==> Utf16Length(texts[j]) == Some(sorted[j].utf16Length)
    {
      var length := Utf16Length(texts[i]);
      if length.None? {
        return Err(NotEncodable);
      }
      assert sorted[i] in sorted;
      if sorted[i].utf16Length != length.value {
        return Err(TextLength);
      }
    }
    return Ok(());
  }

  method ValidateReferences(s: Snapshot, message: Fields) returns (r: Result<()>)
    ensures r.Ok? <==> References(s, message)
  {
    if !ReasoningText(message).Str? {
      return Err(ReasoningNotText);
    }
    var length := Utf16Length(ReasoningText(message).text);
    if length.None? {
      return Err(NotEncodable);
    }
    if length.value != s.reasoningLength {
      return Err(ReasoningLength);
    }
    var segments := Segments(message);
    if segments.Err? {
      return Err(segments.error);
    }
    SortedTextsAre(s.entries);
    r := CompareTexts(SortedTexts(s.entries), AnswerTexts(message, segments.value));
    if r.Err? {
      return;
    }
    var tools := TranscriptTools(segments.value);
    if tools.Err? {
      return Err(tools.error);
    }
    if SnapshotTools(s.entries) != tools.value {
      if Names(segments.value, SnapshotTools(s.entries)) {
        NamesIsUnique(segments.value, SnapshotTools(s.entries), tools.value);
      }
      return Err(ToolMismatch);
    }
  }

  /******* Order of the entries *******/

  /** Entries that share a text index or a tool id are equal. */
  ghost predicate Unambiguous(entries: seq<Entry>) {
    forall a, b :: a in entries && b in entries && SameKey(a, b) ==> a == b
  }

  predicate SameKey(a: Entry, b: Entry) {
    || (a.TextEntry? && b.TextEntry? && a.textIndex == b.textIndex)
    || (a.ToolEntry? && b.ToolEntry? && a.toolUseId == b.toolUseId)
  }

  lemma {:induction false} TextEntriesCount(entries: seq<Entry>, e: Entry)
    ensures multiset(TextEntries(entries))[e] == if e.TextEntry? then multiset(entries)[e] else 0
  {
    if entries != [] {
      TextEntriesCount(entries[1..], e);
      assert entries == [entries[0]] + entries[1..];
    }
  }

  lemma SortedTextsForgetOrder(a: seq<Entry>, b: seq<Entry>)
    requires multiset(a) == multiset(b) && Unambiguous(a)
    ensures SortedTexts(a) == SortedTexts(b)
  {
    forall e: Entry ensures multiset(TextEntries(a))[e] == multiset(TextEntries(b))[e] {
      TextEntriesCount(a, e);
      TextEntriesCount(b, e);
    }
    TextEntriesAre(a);
    assert Strict(TextEntries(a), ByIndex);
    SortForgetsOrder(TextEntries(a), TextEntries(b), ByIndex);
  }

  lemma {:induction false} SnapshotToolsAre(entries: seq<Entry>)
    requires Unambiguous(entries)
    ensures forall id, name :: Maps(SnapshotTools(entries), id, name) <==> ToolEntry(id, name) in entries
  {
    if entries != [] {
      var before, last := entries[..|entries| - 1], entries[|entries| - 1];
      assert entries == before + [last];
      SnapshotToolsAre(before);
      forall id, name ensures Maps(SnapshotTools(entries), id, name) <==> ToolEntry(id, name) in entries {
        assert Maps(SnapshotTools(before), id, name) <==> ToolEntry(id, name) in before;
        if last.ToolEntry? && last.toolUseId == id && ToolEntry(id, name) in entries {
          assert SameKey(last, ToolEntry(id, name));
        }
      }
    }
  }

  lemma SnapshotToolsForgetOrder(a: seq<Entry>, b: seq<Entry>)
    requires multiset(a) == multiset(b) && Unambiguous(a) && Unambiguous(b)
    ensures SnapshotTools(a) == SnapshotTools(b)
  {
    SnapshotToolsAre(a);
    SnapshotToolsAre(b);
    SameElements(a, b);
    var m, n := SnapshotTools(a), SnapshotTools(b);
    forall id | id in m ensures id in n && n[id] == m[id] {
      assert Maps(m, id, m[id]);
      assert Maps(n, id, m[id]);
    }
    forall id | id in n ensures id in m {
      assert Maps(n, id, n[id]);
      assert Maps(m, id, n[id]);
    }
  }

  lemma UnambiguousOrder(s: Snapshot, entries: seq<Entry>, message: Fields)
    requires multiset(s.entries) == multiset(entries) && Unambiguous(s.entries)
    ensures References(s, message) <==> References(s.(entries := entries), message)
  {
    SameElements(s.entries, entries);
    SortedTextsForgetOrder(s.entries, entries);
    SnapshotToolsForgetOrder(s.entries, entries);
  }

  /******* Normal form *******/

  function IndexOf(e: Entry): nat {
    if e.TextEntry? then e.textIndex else 0
  }

  function Indices(es: seq<Entry>): seq<nat> {
    if es == [] then [] else [IndexOf(es[0])] + Indices(es[1..])
  }

  predicate AtMost(a: nat, b: nat) {
    a <= b
  }

  function Range(n: nat): seq<nat> {
    seq(n, i => i)
  }

  /**
   What the normaliser lets through: the sorted text indices are 0, 1, 2 and so on, texts are
   not empty, and no two entries share an id, which for a tool entry names the tool use.
   */
  predicate Normal(entries: seq<Entry>) {
    && entries != []
    && Sorted(Indices(TextEntries(entries)), AtMost) == Range(|TextEntries(entries)|)
    && (forall i :: 0 <= i < |entries| && entries[i].TextEntry? ==> entries[i].utf16Length > 0)
    && (forall i, j :: 0 <= i < j < |entries| && entries[i].ToolEntry? && entries[j].ToolEntry? ==>
          entries[i].toolUseId != entries[j].toolUseId)
  }

  lemma {:induction false} IndicesAt(es: seq<Entry>)
    ensures |Indices(es)| == |es| && forall i :: 0 <= i < |es| ==> Indices(es)[i] == IndexOf(es[i])
  {
    if es != [] {
      IndicesAt(es[1..]);
      assert forall i :: 0 < i < |es| ==> es[i] == es[1..][i - 1];
    }
  }

  lemma {:induction false} InsertCommutes(e: Entry, es: seq<Entry>)
    ensures Indices(Insert(e, es, ByIndex)) == Insert(IndexOf(e), Indices(es), AtMost)
  {
    if es == [] || ByIndex(e, es[0]) {
      assert ([e] + es)[1..] == es;
    } else {
      InsertCommutes(e, es[1..]);
      assert ([es[0]] + Insert(e, es[1..], ByIndex))[1..] == Insert(e, es[1..], ByIndex);
    }
  }

  /** Sorting entries by index sorts their indices. */
  lemma {:induction false} SortCommutes(es: seq<Entry>)
    ensures Indices(Sorted(es, ByIndex)) == Sorted(Indices(es), AtMost)
  {
    if es != [] {
      SortCommutes(es[1..]);
      InsertCommutes(es[0], Sorted(es[1..], ByIndex));
    }
  }

  /** In normal form, text entry number `i` stands at position `i` of the sorted view. */
  lemma NormalPositions(entries: seq<Entry>)
    requires Normal(entries)
    ensures |SortedTexts(entries)| == |TextEntries(entries)|
    ensures forall i :: 0 <= i < |SortedTexts(entries)| ==>
      SortedTexts(entries)[i].TextEntry? && SortedTexts(entries)[i].textIndex == i
  {
    SortedTextsAre(entries);
    SameElements(SortedTexts(entries), TextEntries(entries));
    SortCommutes(TextEntries(entries));
    IndicesAt(SortedTexts(entries));
    forall i | 0 <= i < |SortedTexts(entries)|
      ensures SortedTexts(entries)[i].TextEntry? && SortedTexts(entries)[i].textIndex == i
    {
      assert SortedTexts(entries)[i] in SortedTexts(entries);
      assert Indices(SortedTexts(entries))[i] == Range(|TextEntries(entries)|)[i];
    }
  }

  lemma TextPosition(entries: seq<Entry>, e: Entry)
    requires Normal(entries) && e in entries && e.TextEntry?
    ensures e.textIndex < |SortedTexts(entries)| && SortedTexts(entries)[e.textIndex] == e
  {
    SortedTextsAre(entries);
    NormalPositions(entries);
    var i :| 0 <= i < |SortedTexts(entries)| && SortedTexts(entries)[i] == e;
  }

  lemma NormalIsUnambiguous(entries: seq<Entry>)
    requires Normal(entries)
    ensures Unambiguous(entries)
  {
    forall a, b | a in entries && b in entries && SameKey(a, b) ensures a == b {
      if a.TextEntry? {
        TextPosition(entries, a);
        TextPosition(entries, b);
      } else {
        var i :| 0 <= i < |entries| && entries[i] == a;
        var j :| 0 <= j < |entries| && entries[j] == b;
        assert i == j;
      }
    }
  }

  /** The check sees a normal snapshot by content only: any order of its entries gets the same verdict. */
  lemma OrderIsIrrelevant(s: Snapshot, entries: seq<Entry>, message: Fields)
    requires multiset(s.entries) == multiset(entries) && Normal(s.entries)
    ensures References(s, message) <==> References(s.(entries := entries), message)
  {
    NormalIsUnambiguous(s.entries);
    UnambiguousOrder(s, entries, message);
  }

  /** The verdict without sorting and without a tool map: every entry speaks for itself. */
  ghost predicate Describes(s: Snapshot, message: Fields) {
    && ReasoningText(message).Str? && Utf16Length(ReasoningText(message).text) == Some(s.reasoningLength)
    && Segments(message).Ok?
    && var segments := Segments(message).value;
      && |TextEntries(s.entries)| == |AnswerTexts(message, segments)|
      && (forall e :: e in s.entries && e.TextEntry? ==> MeasuresText(e, AnswerTexts(message, segments)))
      && Stable(segments) && !Conflict(segments)
      && (forall id, name :: ToolEntry(id, name) in s.entries <==> Named(segments, id, name))
  }

  predicate MeasuresText(e: Entry, texts: seq<Text>)
    requires e.TextEntry?
  {
    e.textIndex < |texts| && Utf16Length(texts[e.textIndex]) == Some(e.utf16Length)
  }

  lemma MeasuresIff(entries: seq<Entry>, texts: seq<Text>)
    requires Normal(entries)
    ensures forall e :: e in SortedTexts(entries) ==> e.TextEntry?
    ensures Measures(SortedTexts(entries), texts) <==>
      |TextEntries(entries)| == |texts| && forall e :: e in entries && e.TextEntry? ==> MeasuresText(e, texts)
  {
    SortedTextsAre(entries);
    NormalPositions(entries);
    if Measures(SortedTexts(entries), texts) {
      forall e | e in entries && e.TextEntry? ensures MeasuresText(e, texts) {
        TextPosition(entries, e);
      }
    }
    if |TextEntries(entries)| == |texts| && forall e :: e in entries && e.TextEntry? ==> MeasuresText(e, texts) {
      forall i | 0 <= i < |texts| ensures Utf16Length(texts[i]) == Some(SortedTexts(entries)[i].utf16Length) {
        assert SortedTexts(entries)[i] in SortedTexts(entries);
        assert MeasuresText(SortedTexts(entries)[i], texts);
      }
    }
  }

  lemma NamesIff(entries: seq<Entry>, segments: seq<Fields>)
    requires Normal(entries) && !Conflict(segments)
    ensures Names(segments, SnapshotTools(entries)) <==>
      forall id, name :: ToolEntry(id, name) in entries <==> Named(segments, id, name)
  {
    var m := SnapshotTools(entries);
    NormalIsUnambiguous(entries);
    SnapshotToolsAre(entries);
    if Names(segments, m) {
      forall id, name ensures ToolEntry(id, name) in entries <==> Named(segments, id, name) {
        assert Maps(m, id, name) <==> ToolEntry(id, name) in entries;
        if Named(segments, id, name) {
          var i :| 0 <= i < |segments| && ReferenceOf(segments[i]) == Tool(id, name);
        }
      }
    }
    if forall id, name :: ToolEntry(id, name) in entries <==> Named(segments, id, name) {
      forall i | 0 <= i < |segments| && ReferenceOf(segments[i]).Tool?
        ensures Maps(m, ReferenceOf(segments[i]).id, ReferenceOf(segments[i]).name)
      {
        assert Named(segments, ReferenceOf(segments[i]).id, ReferenceOf(segments[i]).name);
      }
      forall id | id in m ensures Named(segments, id, m[id]) {
        assert Maps(m, id, m[id]);
      }
    }
  }

  /** On normal snapshots the check decides exactly what the entries say, one by one. */
  lemma ReferencesAreDescriptions(s: Snapshot, message: Fields)
    requires Normal(s.entries)
    ensures References(s, message) <==> Describes(s, message)
  {
    if Segments(message).Ok? {
      MeasuresIff(s.entries, AnswerTexts(message, Segments(message).value));
      if !Conflict(Segments(message).value) {
        NamesIff(s.entries, Segments(message).value);
      }
    }
  }

  /******* Lengths add up *******/

  function TotalLength(entries: seq<Entry>): nat {
    if entries == [] then 0
    else (if entries[0].TextEntry? then entries[0].utf16Length else 0) + TotalLength(entries[1..])
  }

  function Joined(texts: seq<Text>): Text {
    if texts == [] then [] else texts[0] + Joined(texts[1..])
  }

  lemma {:induction false} MeasuresWhole(sorted: seq<Entry>, texts: seq<Text>)
    requires forall e :: e in sorted ==> e.TextEntry?
    requires Measures(sorted, texts)
    ensures Utf16Length(Joined(texts)) == Some(TotalLength(sorted))
  {
    if texts == [] {
      LengthCountsUnits([]);
    } else {
      assert forall i :: 0 <= i < |texts| - 1 ==> texts[1..][i] == texts[i + 1] && sorted[1..][i] == sorted[i + 1];
      MeasuresWhole(sorted[1..], texts[1..]);
      LengthAdds(texts[0], Joined(texts[1..]));
      LengthCountsUnits(texts[0] + Joined(texts[1..]));
    }
  }

  /** An accepted snapshot's text entries, in order, add up to the UTF-16 length of the whole answer. */
  lemma LengthsCoverAnswer(s: Snapshot, message: Fields)
    requires References(s, message)
    ensures Utf16Length(Joined(AnswerTexts(message, Segments(message).value)))
            == Some(TotalLength(SortedTexts(s.entries)))
  {
    SortedTextsAre(s.entries);
    MeasuresWhole(SortedTexts(s.entries), AnswerTexts(message, Segments(message).value));
  }

  /******* From exports to a validated snapshot *******/

  ghost predicate OneAnswer(history: Json, turn: Text, wanted: Option<Text>, message: Fields) {
    && history.Obj? && Get(history.fields, MessagesKey).List?
    && exists i: nat :: OnlyMatch(Get(history.fields, MessagesKey).items, i, turn, wanted)
                     && message == Get(history.fields, MessagesKey).items[i].fields
  }

  lemma OneAnswerIsUnique(history: Json, turn: Text, wanted: Option<Text>, m: Fields, n: Fields)
    requires OneAnswer(history, turn, wanted, m) && OneAnswer(history, turn, wanted, n)
    ensures m == n
  {
  }

  /** `build` stands for the snapshot builder; what it builds has to be complete and in normal form. */
  ghost predicate Validated(replay: Json, history: Json, task: Text, turn: Text, wanted: Option<Text>,
                            build: seq<Event> -> Option<Snapshot>) {
    && Evidence(replay, task, turn)
    && var s := build(ParsedAll(RawEvents(replay).value));
      && s.Some? && s.value.complete && Normal(s.value.entries)
      && exists message :: OneAnswer(history, turn, wanted, message) && Describes(s.value, message)
  }

  method BuildValidated(replay: Json, history: Json, task: Text, turn: Text, wanted: Option<Text>,
                        build: seq<Event> -> Option<Snapshot>) returns (r: Result<Snapshot>)
    ensures r.Ok? <==> Validated(replay, history, task, turn, wanted, build)
    ensures r.Ok? ==> build(ParsedAll(RawEvents(replay).value)) == Some(r.value)
  {
    var events := AcceptReplay(replay, task, turn);
    if events.Err? {
      return Err(events.error);
    }
    var s := build(events.value);
    if s.None? || !Normal(s.value.entries) || !s.value.complete {
      return Err(NoCompleteSnapshot);
    }
    var message := AssistantFromHistory(history, turn, wanted);
    if message.Err? {
      return Err(message.error);
    }
    assert OneAnswer(history, turn, wanted, message.value);
    var checked := ValidateReferences(s.value, message.value);
    ReferencesAreDescriptions(s.value, message.value);
    if checked.Err? {
      forall m | OneAnswer(history, turn, wanted, m) ensures !Describes(s.value, m) {
        OneAnswerIsUnique(history, turn, wanted, m, message.value);
      }
      return Err(checked.error);
    }
    return Ok(s.value);
  }
}
