/**
 The SQL statements the rebuild migrations issue, and the meaning of a whole rebuild:
 the canonical table changes its schema in place.
 */
module MetaRebuild {
  import opened Common
  import opened MetaSchema

  /** INSERT INTO t SELECT *, INSERT INTO t (cols) SELECT cols, INSERT INTO t SELECT cols. */
  datatype Copy = SelectStar | InsertInto(columns: seq<Column>) | SelectInto(columns: seq<Column>)

  /** One recreate: which table, under which scratch name, to which schema, with which indexes. */
  datatype Plan = Plan(
    canonical: TableName,
    scratch: TableName,
    schema: Schema,
    copy: Copy,
    indexes: seq<(IndexName, Index)>)

  /******* Statements: None is an SQL error *******/

  function CreateTable(db: Database, name: TableName, s: Schema): Option<Database> {
    if name in db.tables then None
    else Some(db.(tables := db.tables[name := Table(s, [])]))
  }

  function Targets(copy: Copy, dst: Schema): seq<Column> {
    if copy.InsertInto? then copy.columns else dst.columns
  }

  function Sources(copy: Copy, src: Schema): seq<Column> {
    if copy.SelectStar? then src.columns else copy.columns
  }

  function Default(s: Schema, c: Column): Value {
    if c in s.defaults then s.defaults[c] else Null
  }

  function Position(cs: seq<Column>, c: Column): (i: nat)
    requires c in cs
    ensures i < |cs| && cs[i] == c
  {
    if cs[0] == c then 0 else 1 + Position(cs[1..], c)
  }

  /** The value that lands in each column of the target: positional, defaults elsewhere. */
  function CopyRow(dst: Schema, targets: seq<Column>, sources: seq<Column>, row: Row): Row
    requires |targets| == |sources|
  {
    map c | c in dst.columns ::
      if c in targets && sources[Position(targets, c)] in row
      then row[sources[Position(targets, c)]] else Default(dst, c)
  }

  function CopyRows(dst: Schema, targets: seq<Column>, sources: seq<Column>, rows: seq<Row>): (out: seq<Row>)
    requires |targets| == |sources|
    ensures |out| == |rows|
  {
    seq(|rows|, i requires 0 <= i < |rows| => CopyRow(dst, targets, sources, rows[i]))
  }

  /** The column lists of the INSERT ... SELECT resolve and have the same length. */
  predicate CopyResolves(copy: Copy, dst: Schema, src: Schema) {
    && |Targets(copy, dst)| == |Sources(copy, src)|
    && (forall c :: c in Targets(copy, dst) ==> c in dst.columns)
    && (forall c :: c in Sources(copy, src) ==> c in src.columns)
  }

  predicate CopyFits(copy: Copy, dst: Schema, src: Table) {
    && CopyResolves(copy, dst, src.schema)
    && TableOk(Table(dst, CopyRows(dst, Targets(copy, dst), Sources(copy, src.schema), src.rows)))
  }

  function Copied(copy: Copy, dst: Schema, src: Table): Table
    requires CopyResolves(copy, dst, src.schema)
  {
    Table(dst, CopyRows(dst, Targets(copy, dst), Sources(copy, src.schema), src.rows))
  }

  /** INSERT ... SELECT into a table that was just created and is still empty. */
  function InsertSelect(db: Database, dst: TableName, src: TableName, copy: Copy): Option<Database>
    requires dst in db.tables && db.tables[dst].rows == []
  {
    if src in db.tables && CopyFits(copy, db.tables[dst].schema, db.tables[src]) then
      Some(db.(tables := db.tables[dst := Copied(copy, db.tables[dst].schema, db.tables[src])]))
    else None
  }

  function IndexesOff(indexes: map<IndexName, Index>, name: TableName): map<IndexName, Index> {
    map x | x in indexes && indexes[x].on != name :: indexes[x]
  }

  /** With enforcement live, DROP TABLE first deletes every row, and the deletes cascade. */
  function Cascade(db: Database, name: TableName): map<TableName, Table>
    requires name in db.tables
  {
    map n | n in db.tables ::
      if db.tables[n].schema.parent == Some(name)
      then db.tables[n].(rows := Survivors(db.tables[n].rows, db.tables[name].rows))
      else db.tables[n]
  }

  function Survivors(children: seq<Row>, deleted: seq<Row>): seq<Row> {
    if children == [] then []
    else if RunId in children[0] && children[0][RunId] != Null && HasParent(deleted, children[0])
    then Survivors(children[1..], deleted)
    else [children[0]] + Survivors(children[1..], deleted)
  }

  function DropTable(db: Database, name: TableName, enforce: bool): Option<Database> {
    if name !in db.tables then None
    else
      var tables := if enforce then Cascade(db, name) else db.tables;
      Some(Database(tables - {name}, IndexesOff(db.indexes, name)))
  }

  function Retarget(t: Table, from: TableName, to: TableName): Table {
    if t.schema.parent == Some(from) then t.(schema := t.schema.(parent := Some(to))) else t
  }

  /** ALTER TABLE ... RENAME TO also rewrites references held by other tables. */
  function RenameTable(db: Database, from: TableName, to: TableName): Option<Database> {
    if from !in db.tables || to in db.tables then None
    else
      var moved := (db.tables - {from})[to := db.tables[from]];
      Some(Database(
        map n | n in moved :: Retarget(moved[n], from, to),
        map x | x in db.indexes ::
          if db.indexes[x].on == from then db.indexes[x].(on := to) else db.indexes[x]))
  }

  /** Only the partial unique index is created with IF NOT EXISTS. */
  function CreateIndex(db: Database, name: IndexName, i: Index): Option<Database> {
    if name in db.indexes then (if i.UniqueAwaiting? then Some(db) else None)
    else if IndexHonoured(db, i) then Some(db.(indexes := db.indexes[name := i]))
    else None
  }

  function CreateIndexes(db: Database, todo: seq<(IndexName, Index)>): Option<Database>
    decreases |todo|
  {
    if todo == [] then Some(db)
    else
      var one := CreateIndex(db, todo[0].0, todo[0].1);
      if one.None? then None else CreateIndexes(one.value, todo[1..])
  }

  /******* What a rebuild means *******/

  /** The database with the canonical table's schema replaced in place. */
  function InPlace(db: Database, p: Plan): Database
    requires p.canonical in db.tables && CopyResolves(p.copy, p.schema, db.tables[p.canonical].schema)
  {
    Database(
      db.tables[p.canonical := Copied(p.copy, p.schema, db.tables[p.canonical])],
      IndexesOff(db.indexes, p.canonical))
  }

  /** The whole effect of a recreate, or None when it raises. */
  function Rebuild(db: Database, enforce: bool, p: Plan): Option<Database> {
    if enforce || p.canonical !in db.tables || p.scratch in db.tables
       || !CopyFits(p.copy, p.schema, db.tables[p.canonical]) then None
    else
      var d := CreateIndexes(InPlace(db, p), p.indexes);
      if d.Some? && ForeignKeysClean(d.value) then d else None
  }

  /******* When a rebuild succeeds, and what it keeps *******/

  /** The plan moves columns by name, keeps the key and gives every new required column a default. */
  predicate Faithful(p: Plan, src: Schema) {
    && CopyResolves(p.copy, p.schema, src)
    && Targets(p.copy, p.schema) == Sources(p.copy, src)
    && p.schema.key == src.key
    && p.schema.parent == src.parent
    && RunId in Targets(p.copy, p.schema)
    && (forall c :: c in p.schema.key ==> c in Targets(p.copy, p.schema))
    && (forall c :: c in p.schema.allowed ==> c in Targets(p.copy, p.schema))
    && (forall c :: c in p.schema.required ==>
          if c in Targets(p.copy, p.schema) then c in src.required else Default(p.schema, c) != Null)
  }

  /** No row holds a value that the target's CHECK constraints forbid. */
  predicate NoForbiddenValue(p: Plan, rows: seq<Row>) {
    forall r, c :: r in rows && c in p.schema.allowed && c in r ==> Accepts(p.schema.allowed[c], r[c])
  }

  lemma CopyRowByName(dst: Schema, cols: seq<Column>, row: Row)
    requires forall c :: c in cols ==> c in row
    ensures forall c :: c in CopyRow(dst, cols, cols, row) <==> c in dst.columns
    ensures forall c :: c in dst.columns ==>
      CopyRow(dst, cols, cols, row)[c] == if c in cols then row[c] else Default(dst, c)
  {
  }

  /** A faithful copy, column by column. */
  lemma CopiedByName(p: Plan, t: Table, i: nat)
    requires TableOk(t) && Faithful(p, t.schema) && i < |t.rows|
    ensures
      var cols, out := Targets(p.copy, p.schema), Copied(p.copy, p.schema, t).rows[i];
      && Admissible(t.schema, t.rows[i])
      && (forall c :: c in cols ==> c in t.rows[i] && c in out && out[c] == t.rows[i][c])
      && (forall c :: c in out <==> c in p.schema.columns)
      && (forall c :: c in out && c !in cols ==> out[c] == Default(p.schema, c))
  {
    assert t.rows[i] in t.rows;
    CopyRowByName(p.schema, Targets(p.copy, p.schema), t.rows[i]);
  }

  lemma CopyKeepsKeysDistinct(p: Plan, t: Table)
    requires TableOk(t) && Faithful(p, t.schema)
    ensures KeysDistinct(p.schema.key, Copied(p.copy, p.schema, t).rows)
  {
    var out := Copied(p.copy, p.schema, t).rows;
    forall i, j | 0 <= i < j < |out| ensures !Clash(p.schema.key, out[i], out[j]) {
      CopiedByName(p, t, i);
      CopiedByName(p, t, j);
      if Clash(p.schema.key, out[i], out[j]) {
        assert Clash(p.schema.key, t.rows[i], t.rows[j]);
      }
    }
  }

  lemma CopiedRowAdmissible(p: Plan, t: Table, i: nat)
    requires TableOk(t) && Faithful(p, t.schema) && i < |t.rows|
    ensures Admissible(p.schema, Copied(p.copy, p.schema, t).rows[i]) <==>
      forall c :: c in p.schema.allowed && c in t.rows[i] ==> Accepts(p.schema.allowed[c], t.rows[i][c])
  {
    CopiedByName(p, t, i);
  }

  /** A faithful copy is accepted exactly when no row holds a forbidden value. */
  lemma CopyFitsIff(p: Plan, t: Table)
    requires TableOk(t) && Faithful(p, t.schema)
    ensures CopyFits(p.copy, p.schema, t) <==> NoForbiddenValue(p, t.rows)
  {
    var out := Copied(p.copy, p.schema, t).rows;
    CopyKeepsKeysDistinct(p, t);
    forall i | 0 <= i < |t.rows|
      ensures Admissible(p.schema, out[i]) <==>
        forall c :: c in p.schema.allowed && c in t.rows[i] ==> Accepts(p.schema.allowed[c], t.rows[i][c])
    {
      CopiedRowAdmissible(p, t, i);
    }
    if CopyFits(p.copy, p.schema, t) {
      forall r, c | r in t.rows && c in p.schema.allowed && c in r
        ensures Accepts(p.schema.allowed[c], r[c])
      {
        var i :| 0 <= i < |t.rows| && t.rows[i] == r;
        assert out[i] in out;
      }
    }
    if NoForbiddenValue(p, t.rows) {
      forall r | r in out ensures Admissible(p.schema, r) {
        var i :| 0 <= i < |out| && out[i] == r;
        assert t.rows[i] in t.rows;
      }
    }
  }
}
