/** Every statement that is not refused keeps the catalog and its rows consistent. */
module CatalogInvariant {
  import opened Options
  import opened Catalog

  lemma {:induction false} BindGivesOk(columns: map<Column, ColumnDef>, enums: map<nat, seq<string>>, c: Cond)
    requires Bind(columns, enums, c).Ok?
    ensures ExprOk(columns, Bind(columns, enums, c).value)
  {
    match c
    case And(a, b) =>
      BindGivesOk(columns, enums, a);
      BindGivesOk(columns, enums, b);
    case Or(a, b) =>
      BindGivesOk(columns, enums, a);
      BindGivesOk(columns, enums, b);
    case _ =>
  }

  lemma {:induction false} UnknownColumnNotMentioned(columns: map<Column, ColumnDef>, e: Expr, c: Column)
    requires ExprOk(columns, e) && c !in columns
    ensures !Mentions(e, c)
  {
    match e
    case EAnd(a, b) =>
      UnknownColumnNotMentioned(columns, a, c);
      UnknownColumnNotMentioned(columns, b, c);
    case EOr(a, b) =>
      UnknownColumnNotMentioned(columns, a, c);
      UnknownColumnNotMentioned(columns, b, c);
    case _ =>
  }

  lemma {:induction false} UnknownTypeHasNoLiteral(columns: map<Column, ColumnDef>, e: Expr, o: nat)
    requires ExprOk(columns, e) && forall c :: c in columns ==> columns[c].ctype != Enum(o)
    ensures !HasLiteralOf(e, o)
  {
    match e
    case EAnd(a, b) =>
      UnknownTypeHasNoLiteral(columns, a, o);
      UnknownTypeHasNoLiteral(columns, b, o);
    case EOr(a, b) =>
      UnknownTypeHasNoLiteral(columns, a, o);
      UnknownTypeHasNoLiteral(columns, b, o);
    case _ =>
  }

  /** A condition sees only the columns it may use. */
  lemma {:induction false} EvalSame(columns: map<Column, ColumnDef>, e: Expr, a: Row, b: Row)
    requires ExprOk(columns, e) && forall c :: c in columns ==> Get(a, c) == Get(b, c)
    ensures Eval(e, a) == Eval(e, b)
  {
    match e
    case EAnd(x, y) =>
      EvalSame(columns, x, a, b);
      EvalSame(columns, y, a, b);
    case EOr(x, y) =>
      EvalSame(columns, x, a, b);
      EvalSame(columns, y, a, b);
    case _ =>
  }

  /** What an expression needs of the columns: those it names, with the types of its literals. */
  lemma {:induction false} ExprOkSame(before: map<Column, ColumnDef>, after: map<Column, ColumnDef>, e: Expr)
    requires ExprOk(before, e)
    requires forall c :: c in before && Mentions(e, c) ==> c in after && after[c].ctype == before[c].ctype
    ensures ExprOk(after, e)
  {
    match e
    case EAnd(x, y) =>
      ExprOkSame(before, after, x);
      ExprOkSame(before, after, y);
    case EOr(x, y) =>
      ExprOkSame(before, after, x);
      ExprOkSame(before, after, y);
    case _ =>
  }

  lemma {:induction false} ExprOkCast(columns: map<Column, ColumnDef>, c: Column, t: ColumnType, e: Expr)
    requires c in columns && ExprOk(columns, e) && !ComparesOther(e, c, t)
    ensures ExprOk(columns[c := columns[c].(ctype := t)], e)
  {
    match e
    case EAnd(x, y) =>
      ExprOkCast(columns, c, t, x);
      ExprOkCast(columns, c, t, y);
    case EOr(x, y) =>
      ExprOkCast(columns, c, t, x);
      ExprOkCast(columns, c, t, y);
    case _ =>
  }

  ghost predicate RowsAgree(columns: map<Column, ColumnDef>, before: map<RowId, Row>, after: map<RowId, Row>) {
    forall i :: i in after ==> i in before && RowAgrees(columns, before[i], after[i])
  }

  ghost predicate RowAgrees(columns: map<Column, ColumnDef>, a: Row, b: Row) {
    forall c :: c in columns ==> Get(a, c) == Get(b, c)
  }

  lemma WithColumnAgrees(columns: map<Column, ColumnDef>, rows: map<RowId, Row>, c: Column, v: Value)
    requires c !in columns
    ensures RowsAgree(columns, rows, WithColumn(rows, c, v))
  {
  }

  lemma WithoutColumnAgrees(columns: map<Column, ColumnDef>, rows: map<RowId, Row>, c: Column)
    requires c !in columns
    ensures RowsAgree(columns, rows, WithoutColumn(rows, c))
  {
  }

  /** Replacing the rows of a table by rows that agree on `columns` keeps what holds of them. */
  lemma SatisfiesSame(columns: map<Column, ColumnDef>, e: Expr, before: map<RowId, Row>, after: map<RowId, Row>)
    requires ExprOk(columns, e) && Satisfies(e, before)
    requires RowsAgree(columns, before, after)
    ensures Satisfies(e, after)
  {
    forall i | i in after ensures Eval(e, after[i]) != No {
      assert RowAgrees(columns, before[i], after[i]);
      EvalSame(columns, e, before[i], after[i]);
    }
  }

  lemma UniqueSame(columns: map<Column, ColumnDef>, ix: Index, before: map<RowId, Row>, after: map<RowId, Row>)
    requires ExprOk(columns, ix.filter) && (forall c <- ix.columns :: c in columns) && Unique(ix, before)
    requires RowsAgree(columns, before, after)
    ensures Unique(ix, after)
  {
    if ix.unique {
      forall i, j | i in after && j in after && i != j ensures !Clash(ix, after[i], after[j]) {
        assert RowAgrees(columns, before[i], after[i]) && RowAgrees(columns, before[j], after[j]);
        EvalSame(columns, ix.filter, before[i], after[i]);
        EvalSame(columns, ix.filter, before[j], after[j]);
        assert !Clash(ix, before[i], before[j]);
      }
    }
  }

  lemma CreateEnumKeeps(db: Db, n: TypeName, labels: seq<string>, checkFirst: bool)
    requires Consistent(db) && Perform(db, CreateEnum(n, labels, checkFirst)).Ok?
    ensures Consistent(Perform(db, CreateEnum(n, labels, checkFirst)).value)
  {
    var d := Perform(db, CreateEnum(n, labels, checkFirst)).value;
    forall t | t in d.tables ensures TableOk(d.enums, d.tables[t]) {
      assert TableOk(db.enums, db.tables[t]);
      forall i | i in d.tables[t].rows ensures RowOk(d.enums, d.tables[t].columns, d.tables[t].rows[i]) {
        assert RowOk(db.enums, d.tables[t].columns, d.tables[t].rows[i]);
      }
    }
  }

  lemma DropTypeKeeps(db: Db, n: TypeName)
    requires Consistent(db) && Perform(db, DropType(n)).Ok?
    ensures Consistent(Perform(db, DropType(n)).value)
  {
    var d := Perform(db, DropType(n)).value;
    forall t | t in d.tables ensures TableOk(d.enums, d.tables[t]) {
      assert TableOk(db.enums, db.tables[t]);
      forall i | i in d.tables[t].rows ensures RowOk(d.enums, d.tables[t].columns, d.tables[t].rows[i]) {
        assert RowOk(db.enums, d.tables[t].columns, d.tables[t].rows[i]);
      }
    }
  }

  /** One table replaced by a good one, its indexes still good: the rest is untouched. */
  lemma SetTableKeeps(db: Db, t: TableName, table: Table)
    requires Consistent(db) && t in db.tables && TableOk(db.enums, table)
    requires forall n :: n in db.indexes && db.indexes[n].table == t ==>
               IndexOk(db.tables[t := table], db.indexes[n])
    ensures Consistent(SetTable(db, t, table))
  {
    var d := SetTable(db, t, table);
    forall n | n in d.indexes ensures IndexOk(d.tables, d.indexes[n]) {
      assert IndexOk(db.tables, db.indexes[n]);
    }
  }

  lemma CastRowOk(enums: map<nat, seq<string>>, columns: map<Column, ColumnDef>, r: Row, c: Column, o: nat)
    requires RowOk(enums, columns, r) && c in columns && o in enums
    requires Get(r, c) != Null ==> Get(r, c).Text? && Get(r, c).text in enums[o]
    ensures RowOk(enums, columns[c := columns[c].(ctype := Enum(o))], r)
  {
    assert Get(r, c) == r[c];
  }

  lemma CastTableOk(enums: map<nat, seq<string>>, t: Table, c: Column, o: nat)
    requires TableOk(enums, t) && c in t.columns && o in enums && t.columns[c].default == None
    requires forall k :: k in t.checks ==> !ComparesOther(t.checks[k], c, Enum(o))
    requires forall i :: i in t.rows && Get(t.rows[i], c) != Null ==>
               Get(t.rows[i], c).Text? && Get(t.rows[i], c).text in enums[o]
    ensures TableOk(enums, t.(columns := t.columns[c := t.columns[c].(ctype := Enum(o))]))
  {
    CastRowsOk(enums, t.columns, t.rows, c, o);
    CastChecksOk(t.columns, t.checks, c, o);
  }

  lemma CastRowsOk(enums: map<nat, seq<string>>, columns: map<Column, ColumnDef>, rows: map<RowId, Row>, c: Column, o: nat)
    requires forall i :: i in rows ==> RowOk(enums, columns, rows[i])
    requires c in columns && o in enums
    requires forall i :: i in rows && Get(rows[i], c) != Null ==>
               Get(rows[i], c).Text? && Get(rows[i], c).text in enums[o]
    ensures forall i :: i in rows ==> RowOk(enums, columns[c := columns[c].(ctype := Enum(o))], rows[i])
  {
    forall i | i in rows ensures RowOk(enums, columns[c := columns[c].(ctype := Enum(o))], rows[i]) {
      CastRowOk(enums, columns, rows[i], c, o);
    }
  }

  lemma CastChecksOk(columns: map<Column, ColumnDef>, checks: map<CheckName, Expr>, c: Column, o: nat)
    requires c in columns
    requires forall k :: k in checks ==> ExprOk(columns, checks[k]) && !ComparesOther(checks[k], c, Enum(o))
    ensures forall k :: k in checks ==> ExprOk(columns[c := columns[c].(ctype := Enum(o))], checks[k])
  {
    forall k | k in checks ensures ExprOk(columns[c := columns[c].(ctype := Enum(o))], checks[k]) {
      ExprOkCast(columns, c, Enum(o), checks[k]);
    }
  }

  lemma CastKeeps(db: Db, t: TableName, c: Column, n: TypeName)
    requires Consistent(db) && Cast(db, t, c, n).Ok?
    ensures Consistent(Cast(db, t, c, n).value)
  {
    var before, ty := db.tables[t], Enum(db.types[n]);
    var after := before.(columns := before.columns[c := before.columns[c].(ctype := ty)]);
    CastTableOk(db.enums, before, c, db.types[n]);
    forall k | k in db.indexes && db.indexes[k].table == t ensures IndexOk(db.tables[t := after], db.indexes[k]) {
      assert IndexOk(db.tables, db.indexes[k]);
      ExprOkCast(before.columns, c, ty, db.indexes[k].filter);
    }
    SetTableKeeps(db, t, after);
  }

  lemma WiderRowOk(enums: map<nat, seq<string>>, columns: map<Column, ColumnDef>, r: Row, c: Column, d: ColumnDef, v: Value)
    requires RowOk(enums, columns, r) && ValueOk(enums, d, v)
    ensures RowOk(enums, columns[c := d], r[c := v])
  {
  }

  lemma NarrowerRowOk(enums: map<nat, seq<string>>, columns: map<Column, ColumnDef>, r: Row, c: Column)
    requires RowOk(enums, columns, r)
    ensures RowOk(enums, columns - {c}, r - {c})
  {
  }

  lemma ChecksSame(columns: map<Column, ColumnDef>, before: Table, after: Table)
    requires columns.Keys <= before.columns.Keys && columns.Keys <= after.columns.Keys
    requires forall c :: c in columns ==> columns[c].ctype == before.columns[c].ctype == after.columns[c].ctype
    requires RowsAgree(columns, before.rows, after.rows)
    requires forall k :: k in after.checks ==>
               && k in before.checks && after.checks[k] == before.checks[k]
               && ExprOk(columns, after.checks[k]) && Satisfies(before.checks[k], before.rows)
    ensures forall k :: k in after.checks ==> ExprOk(after.columns, after.checks[k]) && Satisfies(after.checks[k], after.rows)
  {
    forall k | k in after.checks ensures ExprOk(after.columns, after.checks[k]) && Satisfies(after.checks[k], after.rows) {
      ExprOkSame(columns, after.columns, after.checks[k]);
      SatisfiesSame(columns, after.checks[k], before.rows, after.rows);
    }
  }

  lemma WiderTableOk(enums: map<nat, seq<string>>, before: Table, c: Column, d: ColumnDef, v: Value)
    requires TableOk(enums, before) && c !in before.columns
    requires d.ctype.Enum? ==> d.ctype.oid in enums
    requires before.rows != map[] ==> ValueOk(enums, d, v)
    ensures TableOk(enums, Table(before.columns[c := d], WithColumn(before.rows, c, v), before.checks))
  {
    var after := Table(before.columns[c := d], WithColumn(before.rows, c, v), before.checks);
    WithColumnAgrees(before.columns, before.rows, c, v);
    forall i | i in after.rows ensures RowOk(enums, after.columns, after.rows[i]) {
      WiderRowOk(enums, before.columns, before.rows[i], c, d, v);
    }
    ChecksSame(before.columns, before, after);
  }

  lemma WiderIndexOk(tables: map<TableName, Table>, t: TableName, c: Column, d: ColumnDef, v: Value, after: Table, ix: Index)
    requires t in tables && IndexOk(tables, ix) && ix.table == t && c !in tables[t].columns
    requires after.columns == tables[t].columns[c := d] && after.rows == WithColumn(tables[t].rows, c, v)
    ensures IndexOk(tables[t := after], ix)
  {
    ExprOkSame(tables[t].columns, after.columns, ix.filter);
    WithColumnAgrees(tables[t].columns, tables[t].rows, c, v);
    UniqueSame(tables[t].columns, ix, tables[t].rows, after.rows);
  }

  lemma NewColumnKeeps(db: Db, t: TableName, c: Column, r: TypeRef, nullable: bool, default: Option<Value>)
    requires Consistent(db) && NewColumn(db, t, c, r, nullable, default).Ok?
    ensures Consistent(NewColumn(db, t, c, r, nullable, default).value)
  {
    var before := db.tables[t];
    var d, v := ColumnDef(TypeOf(db, r).value, nullable, default), if default.Some? then default.value else Null;
    var after := Table(before.columns[c := d], WithColumn(before.rows, c, v), before.checks);
    WiderTableOk(db.enums, before, c, d, v);
    forall k | k in db.indexes && db.indexes[k].table == t ensures IndexOk(db.tables[t := after], db.indexes[k]) {
      WiderIndexOk(db.tables, t, c, d, v, after, db.indexes[k]);
    }
    SetTableKeeps(db, t, after);
  }

  lemma NarrowerTableOk(enums: map<nat, seq<string>>, before: Table, c: Column, checks: map<CheckName, Expr>)
    requires TableOk(enums, before)
    requires forall k :: k in checks ==> k in before.checks && checks[k] == before.checks[k] && !Mentions(checks[k], c)
    ensures TableOk(enums, Table(before.columns - {c}, WithoutColumn(before.rows, c), checks))
  {
    var after := Table(before.columns - {c}, WithoutColumn(before.rows, c), checks);
    WithoutColumnAgrees(after.columns, before.rows, c);
    forall i | i in after.rows ensures RowOk(enums, after.columns, after.rows[i]) {
      NarrowerRowOk(enums, before.columns, before.rows[i], c);
    }
    forall k | k in checks ensures ExprOk(after.columns, checks[k]) {
      ExprOkSame(before.columns, after.columns, checks[k]);
    }
    ChecksSame(after.columns, before, after);
  }

  lemma NarrowerIndexOk(tables: map<TableName, Table>, t: TableName, c: Column, after: Table, ix: Index)
    requires t in tables && IndexOk(tables, ix) && ix.table == t && !Uses(ix, t, c)
    requires after.columns == tables[t].columns - {c} && after.rows == WithoutColumn(tables[t].rows, c)
    ensures IndexOk(tables[t := after], ix)
  {
    ExprOkSame(tables[t].columns, after.columns, ix.filter);
    WithoutColumnAgrees(after.columns, tables[t].rows, c);
    UniqueSame(after.columns, ix, tables[t].rows, after.rows);
  }

  lemma LostColumnKeeps(db: Db, t: TableName, c: Column)
    requires Consistent(db) && LostColumn(db, t, c).Ok?
    ensures Consistent(LostColumn(db, t, c).value)
  {
    var d := LostColumn(db, t, c).value;
    NarrowerTableOk(db.enums, db.tables[t], c, d.tables[t].checks);
    forall k | k in d.indexes ensures IndexOk(d.tables, d.indexes[k]) {
      assert IndexOk(db.tables, db.indexes[k]);
      if db.indexes[k].table == t {
        NarrowerIndexOk(db.tables, t, c, d.tables[t], db.indexes[k]);
      }
    }
  }

  lemma UpdatedRowOk(enums: map<nat, seq<string>>, columns: map<Column, ColumnDef>, r: Row, e: Expr, sets: map<Column, Value>)
    requires RowOk(enums, columns, r) && sets.Keys <= columns.Keys
    requires forall k :: k in sets ==> ValueOk(enums, columns[k], sets[k])
    ensures RowOk(enums, columns, UpdatedRow(r, e, sets))
  {
  }

  lemma UpdatedKeeps(db: Db, t: TableName, sets: map<Column, Value>, c: Cond)
    requires Consistent(db) && Updated(db, t, sets, c).Ok?
    ensures Consistent(Updated(db, t, sets, c).value)
  {
    var before, after := db.tables[t], Updated(db, t, sets, c).value.tables[t];
    var e := Bind(before.columns, db.enums, c).value;
    assert TableOk(db.enums, before);
    forall i | i in after.rows ensures RowOk(db.enums, after.columns, after.rows[i]) {
      UpdatedRowOk(db.enums, before.columns, before.rows[i], e, sets);
    }
    forall k | k in after.checks ensures ExprOk(after.columns, after.checks[k]) && Satisfies(after.checks[k], after.rows) {
      assert ExprOk(before.columns, before.checks[k]);
    }
    forall k | k in db.indexes && db.indexes[k].table == t ensures IndexOk(db.tables[t := after], db.indexes[k]) {
      assert IndexOk(db.tables, db.indexes[k]);
    }
    SetTableKeeps(db, t, after);
  }

  lemma NewCheckKeeps(db: Db, t: TableName, n: CheckName, c: Cond)
    requires Consistent(db) && NewCheck(db, t, n, c).Ok?
    ensures Consistent(NewCheck(db, t, n, c).value)
  {
    BindGivesOk(db.tables[t].columns, db.enums, c);
    SameColumnsKeep(db, t, NewCheck(db, t, n, c).value.tables[t]);
  }

  /** A table whose columns keep their types and whose rows stay keeps its indexes. */
  lemma SameColumnsKeep(db: Db, t: TableName, after: Table)
    requires Consistent(db) && t in db.tables && TableOk(db.enums, after)
    requires after.rows == db.tables[t].rows && after.columns.Keys == db.tables[t].columns.Keys
    requires forall c :: c in after.columns ==> after.columns[c].ctype == db.tables[t].columns[c].ctype
    ensures Consistent(SetTable(db, t, after))
  {
    forall k | k in db.indexes && db.indexes[k].table == t ensures IndexOk(db.tables[t := after], db.indexes[k]) {
      assert IndexOk(db.tables, db.indexes[k]);
      ExprOkSame(db.tables[t].columns, after.columns, db.indexes[k].filter);
    }
    SetTableKeeps(db, t, after);
  }

  lemma DropDefaultKeeps(db: Db, t: TableName, c: Column)
    requires Consistent(db) && Perform(db, DropDefault(t, c)).Ok?
    ensures Consistent(Perform(db, DropDefault(t, c)).value)
  {
    var before := db.tables[t];
    var after := before.(columns := before.columns[c := before.columns[c].(default := None)]);
    assert TableOk(db.enums, before);
    forall i | i in after.rows ensures RowOk(db.enums, after.columns, after.rows[i]) {
      assert RowOk(db.enums, before.columns, before.rows[i]);
    }
    forall k | k in after.checks ensures ExprOk(after.columns, after.checks[k]) {
      ExprOkSame(before.columns, after.columns, before.checks[k]);
    }
    SameColumnsKeep(db, t, after);
  }

  lemma NewIndexKeeps(db: Db, n: IndexName, t: TableName, columns: seq<Column>, unique: bool, isConstraint: bool, c: Cond)
    requires Consistent(db) && NewIndex(db, n, t, columns, unique, isConstraint, c).Ok?
    ensures Consistent(NewIndex(db, n, t, columns, unique, isConstraint, c).value)
  {
    BindGivesOk(db.tables[t].columns, db.enums, c);
    var d := NewIndex(db, n, t, columns, unique, isConstraint, c).value;
    forall k | k in d.indexes ensures IndexOk(d.tables, d.indexes[k]) {
      assert k != n ==> IndexOk(db.tables, db.indexes[k]);
    }
  }

  lemma FreshTableKeeps(db: Db, t: TableName, table: Table)
    requires Consistent(db) && t !in db.tables && TableOk(db.enums, table)
    ensures Consistent(SetTable(db, t, table))
  {
    var d := SetTable(db, t, table);
    forall k | k in d.indexes ensures IndexOk(d.tables, d.indexes[k]) {
      assert IndexOk(db.tables, db.indexes[k]);
    }
  }

  lemma NewTableKeeps(db: Db, t: TableName, specs: map<Column, ColumnSpec>)
    requires Consistent(db) && NewTable(db, t, specs).Ok?
    ensures Consistent(NewTable(db, t, specs).value)
  {
    FreshTableKeeps(db, t, NewTable(db, t, specs).value.tables[t]);
  }

  lemma PerformKeepsConsistent(db: Db, s: Statement)
    requires Consistent(db) && Perform(db, s).Ok?
    ensures Consistent(Perform(db, s).value)
  {
    match s
    case DropIndex(_) =>
    case DropUnique(_) =>
    case DropCheck(t, n) => SameColumnsKeep(db, t, Perform(db, s).value.tables[t]);
    case RenameType(_, _) =>
    case CreateEnum(n, labels, checkFirst) => CreateEnumKeeps(db, n, labels, checkFirst);
    case CastColumn(t, c, n) => CastKeeps(db, t, c, n);
    case DropType(n) => DropTypeKeeps(db, n);
    case CreateIndex(n, t, columns, unique, c) => NewIndexKeeps(db, n, t, columns, unique, false, c);
    case CreateUnique(n, t, columns) => NewIndexKeeps(db, n, t, columns, true, true, Always);
    case AddColumn(t, c, r, nullable, default) => NewColumnKeeps(db, t, c, r, nullable, default);
    case DropColumn(t, c) => LostColumnKeeps(db, t, c);
    case CreateCheck(t, n, c) => NewCheckKeeps(db, t, n, c);
    case Update(t, sets, c) => UpdatedKeeps(db, t, sets, c);
    case DropDefault(t, c) => DropDefaultKeeps(db, t, c);
    case CreateTable(t, specs) => NewTableKeeps(db, t, specs);
  }

  /** So does every migration that runs to completion. */
  lemma {:induction false} RunKeepsConsistent(db: Db, script: seq<Statement>, k: nat)
    requires k <= |script| && Consistent(db) && Run(db, script, k).Ok?
    ensures Consistent(Run(db, script, k).value)
    decreases |script| - k
  {
    if k < |script| {
      PerformKeepsConsistent(db, script[k]);
      RunKeepsConsistent(Perform(db, script[k]).value, script, k + 1);
    }
  }

  // ---------------------------------------------------------------- what a table can hold

  /** These rows fit the table's columns and obey its CHECKs and unique indexes. */
  ghost predicate Admits(db: Db, t: TableName, rows: map<RowId, Row>)
    requires t in db.tables
  {
    && (forall i :: i in rows ==> RowOk(db.enums, db.tables[t].columns, rows[i]))
    && (forall k :: k in db.tables[t].checks ==> Satisfies(db.tables[t].checks[k], rows))
    && (forall k :: k in db.indexes && db.indexes[k].table == t ==> Unique(db.indexes[k], rows))
  }

  ghost predicate AdmitsRow(db: Db, t: TableName, r: Row)
    requires t in db.tables
  {
    RowOk(db.enums, db.tables[t].columns, r) && forall k :: k in db.tables[t].checks ==> Eval(db.tables[t].checks[k], r) != No
  }

  ghost predicate AdmitsBoth(db: Db, t: TableName, a: Row, b: Row) {
    forall k :: k in db.indexes && db.indexes[k].table == t && db.indexes[k].unique ==> !Clash(db.indexes[k], a, b)
  }

  /** Each row is judged alone, and each pair. */
  lemma AdmitsPointwise(db: Db, t: TableName, rows: map<RowId, Row>)
    requires t in db.tables
    ensures Admits(db, t, rows) <==>
              && (forall i :: i in rows ==> AdmitsRow(db, t, rows[i]))
              && (forall i, j :: i in rows && j in rows && i != j ==> AdmitsBoth(db, t, rows[i], rows[j]))
  {
  }

  function Holding(db: Db, t: TableName, rows: map<RowId, Row>): Db
    requires t in db.tables
  {
    SetTable(db, t, db.tables[t].(rows := rows))
  }

  lemma AdmittedKeeps(db: Db, t: TableName, rows: map<RowId, Row>)
    requires Consistent(db) && t in db.tables && Admits(db, t, rows)
    ensures Consistent(Holding(db, t, rows))
  {
    var d := Holding(db, t, rows);
    forall u | u in d.tables ensures TableOk(d.enums, d.tables[u]) {
      assert TableOk(db.enums, db.tables[u]);
    }
    forall k | k in d.indexes ensures IndexOk(d.tables, d.indexes[k]) {
      assert IndexOk(db.tables, db.indexes[k]);
    }
  }

  /** In a consistent database a table can hold exactly the rows that it admits. */
  lemma AdmitsIff(db: Db, t: TableName, rows: map<RowId, Row>)
    requires Consistent(db) && t in db.tables
    ensures Admits(db, t, rows) <==> Consistent(Holding(db, t, rows))
  {
    if Admits(db, t, rows) {
      AdmittedKeeps(db, t, rows);
    } else if Consistent(Holding(db, t, rows)) {
      var d := Holding(db, t, rows);
      assert TableOk(d.enums, d.tables[t]);
      forall k | k in db.indexes && db.indexes[k].table == t ensures Unique(db.indexes[k], rows) {
        assert IndexOk(d.tables, d.indexes[k]);
      }
    }
  }
}
