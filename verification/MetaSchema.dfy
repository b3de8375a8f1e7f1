/**
 The tables of the meta-skill ledger, as SQLite sees them: a schema with ordered
 columns, NOT NULL and CHECK constraints, a primary key and an optional cascading
 reference to a parent table, and rows that are finite maps from columns to values.

 Every literal that a CHECK constraint of migrations V010 to V016 mentions is a
 constructor of `Word`; any other text is `Text`.
 */
module MetaSchema {
  import opened Common

  datatype TableName = Runs | Steps | RunsNew | RunsOld | StepsNew

  datatype IndexName = ByName | ByStatus | BySession | ByStart | ByStepStatus | OneAwaiting

  datatype Column =
    | RunId | MetaSkillName | MetaSkillDigest | PlanSnapshotJson | TriggeredBy
    | SessionKey | TurnId | OwnerPid | Status | StartedAtMs | EndedAtMs
    | InputsJson | FinalText | FailedStepId | Error | TruncatedFields
    | AwaitingStepId | AwaitingSchemaJson | AwaitingSince | AwaitingFilledJson
    | StepOutputsJson | ParseFailureCount
    | StepId | StepKind | DeclaredSkill | EffectiveSkill | RenderedInputsJson
    | OutputText | SubstituteStepId | UsageJson

  datatype Word =
    | HardTakeover | SoftMetaInvoke | AutoCron | AutoDream | ManualCommand
    | Running | Ok | Failed | Cancelled | AwaitingUser | Expired | Substituted
    | Agent | LlmClassify | LlmChat | ToolCall | SkillExec | UserInput

  datatype Value = Null | Lit(word: Word) | Text(text: string) | Int(n: int) | Real(x: real)

  type Row = map<Column, Value>

  datatype Schema = Schema(
    columns: seq<Column>,
    required: set<Column>,
    allowed: map<Column, set<Word>>,
    defaults: map<Column, Value>,
    key: set<Column>,
    parent: Option<TableName>)

  datatype Table = Table(schema: Schema, rows: seq<Row>)

  datatype Index = Plain(on: TableName, columns: seq<Column>) | UniqueAwaiting(on: TableName)

  datatype Database = Database(tables: map<TableName, Table>, indexes: map<IndexName, Index>)

  /******* Constraints *******/

  /** A CHECK (column IN (...)) accepts NULL; NOT NULL is a separate constraint. */
  predicate Accepts(words: set<Word>, v: Value) {
    v == Null || (v.Lit? && v.word in words)
  }

  predicate Admissible(s: Schema, row: Row) {
    && (forall c :: c in row <==> c in s.columns)
    && (forall c :: c in s.required && c in row ==> row[c] != Null)
    && (forall c :: c in s.allowed && c in row ==> Accepts(s.allowed[c], row[c]))
  }

  /** Two rows clash on a key when all its columns are non-NULL and equal. */
  predicate Clash(key: set<Column>, a: Row, b: Row) {
    forall c :: c in key ==> c in a && c in b && a[c] != Null && a[c] == b[c]
  }

  predicate KeysDistinct(key: set<Column>, rows: seq<Row>) {
    forall i, j :: 0 <= i < j < |rows| ==> !Clash(key, rows[i], rows[j])
  }

  predicate TableOk(t: Table) {
    && (forall r :: r in t.rows ==> Admissible(t.schema, r))
    && KeysDistinct(t.schema.key, t.rows)
  }

  predicate Awaiting(row: Row) {
    Status in row && row[Status] == Lit(AwaitingUser)
  }

  /** What the partial unique index on session_key enforces: NULL keys never clash. */
  predicate AwaitingUnique(rows: seq<Row>) {
    forall i, j :: 0 <= i < j < |rows| && Awaiting(rows[i]) && Awaiting(rows[j]) ==>
      !Clash({SessionKey}, rows[i], rows[j])
  }

  predicate HasParent(rows: seq<Row>, child: Row) {
    RunId in child && (child[RunId] == Null ||
      exists r :: r in rows && RunId in r && r[RunId] == child[RunId])
  }

  /** The rows of the parent table; a table that is not there has none. */
  function ParentRows(db: Database, n: TableName): seq<Row>
    requires n in db.tables && db.tables[n].schema.parent.Some?
  {
    var parent := db.tables[n].schema.parent.value;
    if parent in db.tables then db.tables[parent].rows else []
  }

  /** PRAGMA foreign_key_check answers with no row: every child row has its parent. */
  predicate ForeignKeysClean(db: Database) {
    forall n, r :: n in db.tables && db.tables[n].schema.parent.Some? && r in db.tables[n].rows ==>
      HasParent(ParentRows(db, n), r)
  }

  predicate IndexHonoured(db: Database, i: Index) {
    && i.on in db.tables
    && (i.UniqueAwaiting? ==> AwaitingUnique(db.tables[i.on].rows))
  }

  /** Every constraint SQLite enforces holds. */
  predicate Consistent(db: Database) {
    && (forall n :: n in db.tables ==> TableOk(db.tables[n]))
    && (forall x :: x in db.indexes ==> IndexHonoured(db, db.indexes[x]))
    && ForeignKeysClean(db)
  }

  /******* The schemas of each version *******/

  const RUN_COLUMNS: seq<Column> := [
    RunId, MetaSkillName, MetaSkillDigest, PlanSnapshotJson, TriggeredBy, SessionKey, TurnId,
    OwnerPid, Status, StartedAtMs, EndedAtMs, InputsJson, FinalText, FailedStepId, Error,
    TruncatedFields]

  const CLARIFY_COLUMNS: seq<Column> := [
    AwaitingStepId, AwaitingSchemaJson, AwaitingSince, AwaitingFilledJson, StepOutputsJson,
    ParseFailureCount]

  const STEP_COLUMNS: seq<Column> := [
    RunId, StepId, StepKind, DeclaredSkill, EffectiveSkill, Status, StartedAtMs, EndedAtMs,
    RenderedInputsJson, OutputText, Error, SubstituteStepId, TruncatedFields]

  const RUN_REQUIRED: set<Column> := {
    MetaSkillName, MetaSkillDigest, PlanSnapshotJson, TriggeredBy, Status, StartedAtMs,
    InputsJson, TruncatedFields}

  const STEP_REQUIRED: set<Column> := {
    RunId, StepId, StepKind, DeclaredSkill, EffectiveSkill, Status, StartedAtMs,
    RenderedInputsJson, TruncatedFields}

  const TRIGGERS_V010: set<Word> := {HardTakeover, SoftMetaInvoke}
  const TRIGGERS_V011: set<Word> := {HardTakeover, SoftMetaInvoke, AutoCron, AutoDream}
  const TRIGGERS_V016: set<Word> := {HardTakeover, SoftMetaInvoke, AutoCron, AutoDream, ManualCommand}
  const STATUS_V010: set<Word> := {Running, Ok, Failed, Cancelled}
  const STATUS_V013: set<Word> := {Running, Ok, Failed, Cancelled, AwaitingUser, Expired}
  const KINDS_V010: set<Word> := {Agent, LlmClassify, ToolCall, SkillExec}
  const KINDS_V012: set<Word> := {Agent, LlmClassify, LlmChat, ToolCall, SkillExec}
  const KINDS_V014: set<Word> := {Agent, LlmClassify, LlmChat, ToolCall, SkillExec, UserInput}
  const STEP_STATUS: set<Word> := {Running, Ok, Failed, Substituted}

  function RunsSchema(triggers: set<Word>, statuses: set<Word>, clarify: bool): Schema {
    Schema(
      if clarify then RUN_COLUMNS + CLARIFY_COLUMNS else RUN_COLUMNS,
      if clarify then RUN_REQUIRED + {ParseFailureCount} else RUN_REQUIRED,
      map[TriggeredBy := triggers, Status := statuses],
      if clarify then map[TruncatedFields := Text(""), ParseFailureCount := Int(0)]
      else map[TruncatedFields := Text("")],
      {RunId},
      None)
  }

  function StepsSchema(kinds: set<Word>, usage: bool): Schema {
    Schema(
      if usage then STEP_COLUMNS + [UsageJson] else STEP_COLUMNS,
      if usage then STEP_REQUIRED + {UsageJson} else STEP_REQUIRED,
      map[StepKind := kinds, Status := STEP_STATUS],
      if usage then map[TruncatedFields := Text(""), UsageJson := Text("{}")]
      else map[TruncatedFields := Text("")],
      {RunId, StepId},
      Some(Runs))
  }

  function RunsSchemaAt(v: int): Schema {
    RunsSchema(
      if v >= 16 then TRIGGERS_V016 else if v >= 11 then TRIGGERS_V011 else TRIGGERS_V010,
      if v >= 13 then STATUS_V013 else STATUS_V010,
      v >= 13)
  }

  function StepsSchemaAt(v: int): Schema {
    StepsSchema(
      if v >= 14 then KINDS_V014 else if v >= 12 then KINDS_V012 else KINDS_V010,
      v >= 15)
  }

  const RUN_INDEXES: seq<(IndexName, Index)> := [
    (ByName, Plain(Runs, [MetaSkillName, StartedAtMs])),
    (ByStatus, Plain(Runs, [Status, StartedAtMs])),
    (BySession, Plain(Runs, [SessionKey, StartedAtMs])),
    (ByStart, Plain(Runs, [StartedAtMs]))]

  const STEP_INDEX: (IndexName, Index) := (ByStepStatus, Plain(Steps, [Status]))

  const AWAITING_INDEX: (IndexName, Index) := (OneAwaiting, UniqueAwaiting(Runs))

  function IndexesAt(v: int): map<IndexName, Index> {
    var base := map[
      ByName := Plain(Runs, [MetaSkillName, StartedAtMs]),
      ByStatus := Plain(Runs, [Status, StartedAtMs]),
      BySession := Plain(Runs, [SessionKey, StartedAtMs]),
      ByStart := Plain(Runs, [StartedAtMs]),
      ByStepStatus := Plain(Steps, [Status])];
    if v >= 13 then base[OneAwaiting := UniqueAwaiting(Runs)] else base
  }

  const EMPTY: Database := Database(map[], map[])

  /** The schema objects that exist once every step up to V`v` has been applied. */
  predicate Shape(db: Database, v: int) {
    && db.tables.Keys == {Runs, Steps}
    && db.tables[Runs].schema == RunsSchemaAt(v)
    && db.tables[Steps].schema == StepsSchemaAt(v)
    && db.indexes == IndexesAt(v)
  }

  /** A database at version `v`; version 9 is the database before V010. */
  predicate AtVersion(db: Database, v: int) {
    9 <= v <= 16 && if v == 9 then db == EMPTY else Shape(db, v) && Consistent(db)
  }
}
