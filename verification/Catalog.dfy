/** The part of Postgres that the schema migrations rely on: a catalog, the rows it governs, and
    the data-definition statements, each of which can be refused.

    A type has an identity (its oid) besides its name: columns and the literals inside CHECKs and
    index predicates refer to the identity, so renaming a type changes none of them. */
module Catalog {
  import opened Options

  datatype Error =
    | Missing | AlreadyExists | DependsOnColumn | TypeInUse
    | InvalidLabel | DuplicateKey | CheckViolated | NotNullViolated

  datatype Result<+T> = Ok(value: T) | Err(error: Error)

  datatype TypeName = 
    | ScopeTypeName | ScopeTypeOldName | ScopeTypeNewName | OnLimitName | RejectionOutcomeName
    | ProviderName | OtherType(text: string)

  datatype TableName = RateLimitRules | RejectionEvents | ProviderKeys | OtherTable(text: string)

  datatype Column =
    | Id | OrgId | CreatedAt | UpdatedAt
    | ScopeType | ScopeTeamId | ScopeUserId | RequestsPerMin | TokensPerMin | OnLimit | MaxQueueWait
    | RuleId | UserId | Outcome | OccurredAt
    | Provider | LabelColumn | IsPrimary | FailoverEnabled | FailoverTargetId
    | OtherColumn(text: string)

  datatype IndexName =
    | UqOrgDefault | UqTeamScoped | UqUserScoped | IxEventsByOrg | IxEventsByRule
    | UqOrgProvider | UqOrgProviderLabel | UqOnePrimary | IxFailoverTarget
    | OtherIndex(text: string)

  datatype CheckName = CkScopeTeam | CkScopeId | CkAtLeastOneLimit | OtherCheck(text: string)

  datatype Kind = TextKind | BoolKind | OpaqueKind

  datatype ColumnType = Basic(kind: Kind) | Enum(oid: nat)

  /** How a statement names a type. */
  datatype TypeRef = BasicRef(kind: Kind) | NamedRef(name: TypeName)

  datatype Value = Null | Text(text: string) | Bool(b: bool) | Opaque(id: int)

  datatype ColumnDef = ColumnDef(ctype: ColumnType, nullable: bool, default: Option<Value>)

  /** A column as a statement declares it. */
  datatype ColumnSpec = ColumnSpec(ctype: TypeRef, nullable: bool, default: Option<Value>)

  type RowId = nat
  type Row = map<Column, Value>

  /** A condition as written in a statement. */
  datatype Cond =
    | Always
    | Equals(column: Column, text: string)
    | IsNull(column: Column)
    | IsNotNull(column: Column)
    | IsTrue(column: Column)
    | And(left: Cond, right: Cond)
    | Or(left: Cond, right: Cond)

  /** The same condition as stored: every literal bound to the type its column had then. */
  datatype Expr =
    | EAlways
    | EEquals(column: Column, ctype: ColumnType, text: string)
    | EIsNull(column: Column)
    | EIsNotNull(column: Column)
    | EIsTrue(column: Column)
    | EAnd(left: Expr, right: Expr)
    | EOr(left: Expr, right: Expr)

  datatype Index = Index(table: TableName, columns: seq<Column>, unique: bool, isConstraint: bool, filter: Expr)

  datatype Table = Table(columns: map<Column, ColumnDef>, rows: map<RowId, Row>, checks: map<CheckName, Expr>)

  datatype Db = Db(
    types: map<TypeName, nat>,
    enums: map<nat, seq<string>>,
    tables: map<TableName, Table>,
    indexes: map<IndexName, Index>,
    nextOid: nat)

  // ---------------------------------------------------------------- conditions, three-valued

  datatype Truth = Yes | No | Unknown

  function Get(r: Row, c: Column): Value {
    if c in r then r[c] else Null
  }

  function Conj(a: Truth, b: Truth): Truth {
    if a == No || b == No then No else if a == Yes && b == Yes then Yes else Unknown
  }

  function Disj(a: Truth, b: Truth): Truth {
    if a == Yes || b == Yes then Yes else if a == No && b == No then No else Unknown
  }

  function TruthOf(b: bool): Truth {
    if b then Yes else No
  }

  function Eval(e: Expr, r: Row): Truth {
    match e
    case EAlways => Yes
    case EEquals(c, _, text) => if Get(r, c) == Null then Unknown else TruthOf(Get(r, c) == Text(text))
    case EIsNull(c) => TruthOf(Get(r, c) == Null)
    case EIsNotNull(c) => TruthOf(Get(r, c) != Null)
    case EIsTrue(c) => if Get(r, c) == Null then Unknown else TruthOf(Get(r, c) == Bool(true))
    case EAnd(a, b) => Conj(Eval(a, r), Eval(b, r))
    case EOr(a, b) => Disj(Eval(a, r), Eval(b, r))
  }

  /** Binding a condition to a table: columns must exist and literals must be values of their types. */
  function Bind(columns: map<Column, ColumnDef>, enums: map<nat, seq<string>>, c: Cond): Result<Expr> {
    match c
    case Always => Ok(EAlways)
    case Equals(col, text) =>
      if col !in columns then Err(Missing)
      else if columns[col].ctype.Enum? && !(columns[col].ctype.oid in enums && text in enums[columns[col].ctype.oid])
      then Err(InvalidLabel)
      else Ok(EEquals(col, columns[col].ctype, text))
    case IsNull(col) => if col !in columns then Err(Missing) else Ok(EIsNull(col))
    case IsNotNull(col) => if col !in columns then Err(Missing) else Ok(EIsNotNull(col))
    case IsTrue(col) => if col !in columns then Err(Missing) else Ok(EIsTrue(col))
    case And(a, b) =>
      var x, y := Bind(columns, enums, a), Bind(columns, enums, b);
      if x.Err? then x else if y.Err? then y else Ok(EAnd(x.value, y.value))
    case Or(a, b) =>
      var x, y := Bind(columns, enums, a), Bind(columns, enums, b);
      if x.Err? then x else if y.Err? then y else Ok(EOr(x.value, y.value))
  }

  predicate Mentions(e: Expr, c: Column) {
    match e
    case EAlways => false
    case EEquals(col, _, _) => col == c
    case EIsNull(col) => col == c
    case EIsNotNull(col) => col == c
    case EIsTrue(col) => col == c
    case EAnd(a, b) => Mentions(a, c) || Mentions(b, c)
    case EOr(a, b) => Mentions(a, c) || Mentions(b, c)
  }

  /** Some literal in the expression is compared with column `c` and is not of type `t`. */
  predicate ComparesOther(e: Expr, c: Column, t: ColumnType) {
    match e
    case EEquals(col, ty, _) => col == c && ty != t
    case EAnd(a, b) => ComparesOther(a, c, t) || ComparesOther(b, c, t)
    case EOr(a, b) => ComparesOther(a, c, t) || ComparesOther(b, c, t)
    case _ => false
  }

  predicate HasLiteralOf(e: Expr, oid: nat) {
    match e
    case EEquals(_, ty, _) => ty == Enum(oid)
    case EAnd(a, b) => HasLiteralOf(a, oid) || HasLiteralOf(b, oid)
    case EOr(a, b) => HasLiteralOf(a, oid) || HasLiteralOf(b, oid)
    case _ => false
  }

  // ---------------------------------------------------------------- constraints

  /** Nulls are distinct, and rows outside the predicate are not indexed. */
  predicate Clash(ix: Index, a: Row, b: Row) {
    && Eval(ix.filter, a) == Yes && Eval(ix.filter, b) == Yes
    && forall c <- ix.columns :: Get(a, c) != Null && Get(a, c) == Get(b, c)
  }

  predicate Unique(ix: Index, rows: map<RowId, Row>) {
    ix.unique ==> forall i, j :: i in rows && j in rows && i != j ==> !Clash(ix, rows[i], rows[j])
  }

  predicate Satisfies(e: Expr, rows: map<RowId, Row>) {
    forall i :: i in rows ==> Eval(e, rows[i]) != No
  }

  // ---------------------------------------------------------------- statements

  datatype Statement =
    | DropIndex(index: IndexName)
    | DropUnique(index: IndexName)
    | DropCheck(table: TableName, check: CheckName)
    | RenameType(from: TypeName, to: TypeName)
    | CreateEnum(name: TypeName, labels: seq<string>, checkFirst: bool)
    | CastColumn(table: TableName, column: Column, to: TypeName)   // ALTER COLUMN TYPE to USING column::text::to
    | DropType(name: TypeName)
    | CreateIndex(index: IndexName, table: TableName, columns: seq<Column>, unique: bool, condition: Cond)
    | CreateUnique(index: IndexName, table: TableName, columns: seq<Column>)
    | AddColumn(table: TableName, column: Column, ctype: TypeRef, nullable: bool, default: Option<Value>)
    | DropColumn(table: TableName, column: Column)
    | CreateCheck(table: TableName, check: CheckName, condition: Cond)
    | Update(table: TableName, sets: map<Column, Value>, condition: Cond)
    | DropDefault(table: TableName, column: Column)
    | CreateTable(table: TableName, specs: map<Column, ColumnSpec>)

  function SetTable(db: Db, t: TableName, table: Table): Db {
    db.(tables := db.tables[t := table])
  }

  function NewIndex(db: Db, n: IndexName, t: TableName, columns: seq<Column>, unique: bool, isConstraint: bool, c: Cond): Result<Db> {
    if n in db.indexes then Err(AlreadyExists)
    else if t !in db.tables then Err(Missing)
    else if exists col <- columns :: col !in db.tables[t].columns then Err(Missing)
    else
      var e := Bind(db.tables[t].columns, db.enums, c);
      if e.Err? then Err(e.error)
      else
        var ix := Index(t, columns, unique, isConstraint, e.value);
        if !Unique(ix, db.tables[t].rows) then Err(DuplicateKey)
        else Ok(db.(indexes := db.indexes[n := ix]))
  }

  function DroppedIndex(db: Db, n: IndexName, isConstraint: bool): Result<Db> {
    if n !in db.indexes || db.indexes[n].isConstraint != isConstraint then Err(Missing)
    else Ok(db.(indexes := db.indexes - {n}))
  }

  /** Changing a column's type is refused while a CHECK or index predicate of the table compares
      the column with a literal of another type, or when some value has no image. */
  function Cast(db: Db, t: TableName, c: Column, n: TypeName): Result<Db> {
    if t !in db.tables || c !in db.tables[t].columns || n !in db.types || db.types[n] !in db.enums then Err(Missing)
    else
      var table, ty := db.tables[t], Enum(db.types[n]);
      if (exists k :: k in table.checks && ComparesOther(table.checks[k], c, ty))
         || (exists k :: k in db.indexes && db.indexes[k].table == t && ComparesOther(db.indexes[k].filter, c, ty))
         || table.columns[c].default.Some?
      then Err(DependsOnColumn)
      else if exists i :: i in table.rows && Get(table.rows[i], c) != Null
                          && !(Get(table.rows[i], c).Text? && Get(table.rows[i], c).text in db.enums[db.types[n]])
      then Err(InvalidLabel)
      else Ok(SetTable(db, t, table.(columns := table.columns[c := table.columns[c].(ctype := ty)])))
  }

  predicate TypeUsed(db: Db, oid: nat) {
    || (exists t, c :: t in db.tables && c in db.tables[t].columns && db.tables[t].columns[c].ctype == Enum(oid))
    || (exists t, k :: t in db.tables && k in db.tables[t].checks && HasLiteralOf(db.tables[t].checks[k], oid))
    || (exists k :: k in db.indexes && HasLiteralOf(db.indexes[k].filter, oid))
  }

  function WithColumn(rows: map<RowId, Row>, c: Column, v: Value): map<RowId, Row> {
    map i | i in rows :: rows[i][c := v]
  }

  function WithoutColumn(rows: map<RowId, Row>, c: Column): map<RowId, Row> {
    map i | i in rows :: rows[i] - {c}
  }

  predicate ValueOk(enums: map<nat, seq<string>>, d: ColumnDef, v: Value) {
    match v
    case Null => d.nullable
    case Text(s) => d.ctype == Basic(TextKind) || (d.ctype.Enum? && d.ctype.oid in enums && s in enums[d.ctype.oid])
    case Bool(_) => d.ctype == Basic(BoolKind)
    case Opaque(_) => d.ctype == Basic(OpaqueKind)
  }

  function TypeOf(db: Db, r: TypeRef): Result<ColumnType> {
    match r
    case BasicRef(k) => Ok(Basic(k))
    case NamedRef(n) => if n in db.types then Ok(Enum(db.types[n])) else Err(Missing)
  }

  function NewColumn(db: Db, t: TableName, c: Column, r: TypeRef, nullable: bool, default: Option<Value>): Result<Db> {
    if t !in db.tables then Err(Missing)
    else if c in db.tables[t].columns then Err(AlreadyExists)
    else
      var ty := TypeOf(db, r);
      if ty.Err? then Err(ty.error)
      else
        var d, v := ColumnDef(ty.value, nullable, default), if default.Some? then default.value else Null;
        if default.Some? && !ValueOk(db.enums, d, v) then Err(InvalidLabel)
        else if v == Null && !nullable && db.tables[t].rows != map[] then Err(NotNullViolated)
        else Ok(SetTable(db, t, db.tables[t].(
                  columns := db.tables[t].columns[c := d],
                  rows := WithColumn(db.tables[t].rows, c, v))))
  }

  predicate Uses(ix: Index, t: TableName, c: Column) {
    ix.table == t && (c in ix.columns || Mentions(ix.filter, c))
  }

  function ChecksWithout(checks: map<CheckName, Expr>, c: Column): map<CheckName, Expr> {
    map k | k in checks && !Mentions(checks[k], c) :: checks[k]
  }

  function IndexesWithout(indexes: map<IndexName, Index>, t: TableName, c: Column): map<IndexName, Index> {
    map k | k in indexes && !Uses(indexes[k], t, c) :: indexes[k]
  }

  /** Dropping a column takes the indexes and CHECKs that involve it along. */
  function LostColumn(db: Db, t: TableName, c: Column): Result<Db> {
    if t !in db.tables || c !in db.tables[t].columns then Err(Missing)
    else
      var table := db.tables[t];
      Ok(SetTable(db, t, Table(table.columns - {c}, WithoutColumn(table.rows, c), ChecksWithout(table.checks, c)))
         .(indexes := IndexesWithout(db.indexes, t, c)))
  }

  function NewCheck(db: Db, t: TableName, n: CheckName, c: Cond): Result<Db> {
    if t !in db.tables then Err(Missing)
    else if n in db.tables[t].checks then Err(AlreadyExists)
    else
      var e := Bind(db.tables[t].columns, db.enums, c);
      if e.Err? then Err(e.error)
      else if !Satisfies(e.value, db.tables[t].rows) then Err(CheckViolated)
      else Ok(SetTable(db, t, db.tables[t].(checks := db.tables[t].checks[n := e.value])))
  }

  function UpdatedRow(r: Row, e: Expr, sets: map<Column, Value>): Row {
    if Eval(e, r) == Yes then r + sets else r
  }

  function UpdatedRows(rows: map<RowId, Row>, e: Expr, sets: map<Column, Value>): map<RowId, Row> {
    map i | i in rows :: UpdatedRow(rows[i], e, sets)
  }

  function Updated(db: Db, t: TableName, sets: map<Column, Value>, c: Cond): Result<Db> {
    if t !in db.tables || !(sets.Keys <= db.tables[t].columns.Keys) then Err(Missing)
    else
      var e := Bind(db.tables[t].columns, db.enums, c);
      if e.Err? then Err(e.error)
      else
        var table := db.tables[t].(rows := UpdatedRows(db.tables[t].rows, e.value, sets));
        if exists k :: k in sets && !ValueOk(db.enums, table.columns[k], sets[k]) then Err(NotNullViolated)
        else if exists k :: k in table.checks && !Satisfies(table.checks[k], table.rows) then Err(CheckViolated)
        else if exists k :: k in db.indexes && db.indexes[k].table == t && !Unique(db.indexes[k], table.rows)
        then Err(DuplicateKey)
        else Ok(SetTable(db, t, table))
  }

  function NewTable(db: Db, t: TableName, specs: map<Column, ColumnSpec>): Result<Db> {
    if t in db.tables then Err(AlreadyExists)
    else if exists c :: c in specs && TypeOf(db, specs[c].ctype).Err? then Err(Missing)
    else
      var columns := map c | c in specs ::
        ColumnDef(TypeOf(db, specs[c].ctype).value, specs[c].nullable, specs[c].default);
      Ok(SetTable(db, t, Table(columns, map[], map[])))
  }

  function Perform(db: Db, s: Statement): Result<Db> {
    match s
    case DropIndex(n) => DroppedIndex(db, n, false)
    case DropUnique(n) => DroppedIndex(db, n, true)
    case DropCheck(t, n) =>
      if t !in db.tables || n !in db.tables[t].checks then Err(Missing)
      else Ok(SetTable(db, t, db.tables[t].(checks := db.tables[t].checks - {n})))
    case RenameType(a, b) =>
      if a !in db.types then Err(Missing)
      else if b in db.types then Err(AlreadyExists)
      else Ok(db.(types := (db.types - {a})[b := db.types[a]]))
    case CreateEnum(n, labels, checkFirst) =>
      if n in db.types then (if checkFirst then Ok(db) else Err(AlreadyExists))
      else Ok(db.(types := db.types[n := db.nextOid],
                  enums := db.enums[db.nextOid := labels],
                  nextOid := db.nextOid + 1))
    case CastColumn(t, c, n) => Cast(db, t, c, n)
    case DropType(n) =>
      if n !in db.types then Err(Missing)
      else if TypeUsed(db, db.types[n]) then Err(TypeInUse)
      else Ok(db.(types := db.types - {n}, enums := db.enums - {db.types[n]}))
    case CreateIndex(n, t, columns, unique, c) => NewIndex(db, n, t, columns, unique, false, c)
    case CreateUnique(n, t, columns) => NewIndex(db, n, t, columns, true, true, Always)
    case AddColumn(t, c, r, nullable, default) => NewColumn(db, t, c, r, nullable, default)
    case DropColumn(t, c) => LostColumn(db, t, c)
    case CreateCheck(t, n, c) => NewCheck(db, t, n, c)
    case Update(t, sets, c) => Updated(db, t, sets, c)
    case DropDefault(t, c) =>
      if t !in db.tables || c !in db.tables[t].columns then Err(Missing)
      else Ok(SetTable(db, t, db.tables[t].(columns := db.tables[t].columns[c := db.tables[t].columns[c].(default := None)])))
    case CreateTable(t, specs) => NewTable(db, t, specs)
  }

  /** A migration from its k-th statement on. */
  function Run(db: Db, script: seq<Statement>, k: nat := 0): Result<Db>
    requires k <= |script|
    decreases |script| - k
  {
    if k == |script| then Ok(db)
    else
      var next := Perform(db, script[k]);
      if next.Err? then next else Run(next.value, script, k + 1)
  }

  const EMPTY := Db(map[], map[], map[], map[], 0)

  const OPAQUE := ColumnSpec(BasicRef(OpaqueKind), false, None)
  const OPAQUE_OR_NULL := ColumnSpec(BasicRef(OpaqueKind), true, None)
  const NOW := ColumnSpec(BasicRef(OpaqueKind), false, Some(Opaque(0)))

  /** The same as columns. */
  const MANDATORY := ColumnDef(Basic(OpaqueKind), false, None)
  const OPTIONAL := ColumnDef(Basic(OpaqueKind), true, None)
  const STAMPED := ColumnDef(Basic(OpaqueKind), false, Some(Opaque(0)))

  // ---------------------------------------------------------------- what every statement keeps

  predicate ExprOk(columns: map<Column, ColumnDef>, e: Expr) {
    match e
    case EAlways => true
    case EEquals(c, ty, _) => c in columns && columns[c].ctype == ty
    case EIsNull(c) => c in columns
    case EIsNotNull(c) => c in columns
    case EIsTrue(c) => c in columns
    case EAnd(a, b) => ExprOk(columns, a) && ExprOk(columns, b)
    case EOr(a, b) => ExprOk(columns, a) && ExprOk(columns, b)
  }

  ghost predicate RowOk(enums: map<nat, seq<string>>, columns: map<Column, ColumnDef>, r: Row) {
    r.Keys == columns.Keys && forall c :: c in columns ==> ValueOk(enums, columns[c], r[c])
  }

  ghost predicate TableOk(enums: map<nat, seq<string>>, t: Table) {
    && (forall c :: c in t.columns && t.columns[c].ctype.Enum? ==> t.columns[c].ctype.oid in enums)
    && (forall i :: i in t.rows ==> RowOk(enums, t.columns, t.rows[i]))
    && (forall k :: k in t.checks ==> ExprOk(t.columns, t.checks[k]) && Satisfies(t.checks[k], t.rows))
  }

  ghost predicate IndexOk(tables: map<TableName, Table>, ix: Index) {
    && ix.table in tables
    && (forall c <- ix.columns :: c in tables[ix.table].columns)
    && ExprOk(tables[ix.table].columns, ix.filter)
    && Unique(ix, tables[ix.table].rows)
  }

  /** Every row fits its columns' types and obeys every CHECK and every unique index; every stored
      literal still has the type of its column; no reference dangles. */
  ghost predicate Consistent(db: Db) {
    && (forall n :: n in db.types ==> db.types[n] in db.enums)
    && (forall m, n :: m in db.types && n in db.types && m != n ==> db.types[m] != db.types[n])
    && (forall o :: o in db.enums ==> o < db.nextOid)
    && (forall t :: t in db.tables ==> TableOk(db.enums, db.tables[t]))
    && (forall n :: n in db.indexes ==> IndexOk(db.tables, db.indexes[n]))
  }

  // ---------------------------------------------------------------- running scripts

  lemma {:induction false} RunConcat(db: Db, a: seq<Statement>, b: seq<Statement>, k: nat)
    requires k <= |a|
    ensures var mid := Run(db, a, k);
            Run(db, a + b, k) == if mid.Err? then mid else Run(mid.value, b, 0)
    decreases |a| - k
  {
    if k == |a| {
      RunSuffix(db, a, b, 0);
    } else {
      assert (a + b)[k] == a[k];
      var next := Perform(db, a[k]);
      if next.Ok? {
        RunConcat(next.value, a, b, k + 1);
      }
    }
  }

  lemma {:induction false} RunSuffix(db: Db, a: seq<Statement>, b: seq<Statement>, k: nat)
    requires k <= |b|
    ensures Run(db, a + b, |a| + k) == Run(db, b, k)
    decreases |b| - k
  {
    if k < |b| {
      assert (a + b)[|a| + k] == b[k];
      var next := Perform(db, b[k]);
      if next.Ok? {
        RunSuffix(next.value, a, b, k + 1);
      }
    }
  }

  lemma RunStep(db: Db, script: seq<Statement>, k: nat, next: Result<Db>)
    requires k < |script| && Perform(db, script[k]) == next
    ensures Run(db, script, k) == if next.Err? then next else Run(next.value, script, k + 1)
  {
  }

  lemma RunThree(db: Db, a: seq<Statement>, b: seq<Statement>, c: seq<Statement>, d: Db)
    requires Run(db, a) == Ok(d)
    ensures var mid := Run(d, b);
            Run(db, a + b + c) == if mid.Err? then mid else Run(mid.value, c)
  {
    RunConcat(db, a + b, c, 0);
    RunConcat(db, a, b, 0);
  }

  lemma RunThreeOk(db: Db, a: seq<Statement>, b: seq<Statement>, c: seq<Statement>, d: Db, e: Db, f: Db)
    requires Run(db, a) == Ok(d) && Run(d, b) == Ok(e) && Run(e, c) == Ok(f)
    ensures Run(db, a + b + c) == Ok(f)
  {
    RunThree(db, a, b, c, d);
  }

  // ---------------------------------------------------------------- creating a table

  function Defs(db: Db, specs: map<Column, ColumnSpec>): map<Column, ColumnDef> {
    map c | c in specs ::
      ColumnDef(if TypeOf(db, specs[c].ctype).Ok? then TypeOf(db, specs[c].ctype).value else Basic(OpaqueKind),
                specs[c].nullable, specs[c].default)
  }

  lemma TableRuns(d: Db, t: TableName, specs: map<Column, ColumnSpec>)
    requires t !in d.tables && forall c :: c in specs ==> TypeOf(d, specs[c].ctype).Ok?
    ensures Perform(d, CreateTable(t, specs)) == Ok(SetTable(d, t, Table(Defs(d, specs), map[], map[])))
  {
    var columns := map c | c in specs :: ColumnDef(TypeOf(d, specs[c].ctype).value, specs[c].nullable, specs[c].default);
    assert columns == Defs(d, specs);
  }

  lemma SameDefs(a: Db, b: Db, specs: map<Column, ColumnSpec>)
    requires a.types == b.types
    ensures Defs(a, specs) == Defs(b, specs)
  {
  }

  // ---------------------------------------------------------------- dropping a column alone

  lemma ChecksStay(checks: map<CheckName, Expr>, c: Column)
    requires forall k :: k in checks ==> !Mentions(checks[k], c)
    ensures ChecksWithout(checks, c) == checks
  {
  }

  lemma IndexesStay(indexes: map<IndexName, Index>, t: TableName, c: Column)
    requires forall k :: k in indexes ==> !Uses(indexes[k], t, c)
    ensures IndexesWithout(indexes, t, c) == indexes
  {
  }

  lemma OnlyColumnLost(db: Db, t: TableName, c: Column)
    requires t in db.tables && c in db.tables[t].columns
    requires ChecksWithout(db.tables[t].checks, c) == db.tables[t].checks
    requires IndexesWithout(db.indexes, t, c) == db.indexes
    ensures var table := db.tables[t];
            Perform(db, DropColumn(t, c)) ==
              Ok(SetTable(db, t, Table(table.columns - {c}, WithoutColumn(table.rows, c), table.checks)))
  {
  }
}
