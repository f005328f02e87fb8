/** Which rows the provider keys can hold, for each column and each rule in turn: after 0001, and what
    0023 changes on any schema before it (backend/alembic/versions). */
module ProviderKeyRows {
  import opened Options
  import opened Catalog
  import opened CatalogInvariant
  import opened ProviderKeyMigration
  import opened ProviderKeyOrigin

  // ---------------------------------------------------------------- after 0001

  const KEY_KEYS: set<Column> := {
    Id, OrgId, Provider, OtherColumn("ciphertext"), OtherColumn("nonce"), OtherColumn("auth_tag"),
    OtherColumn("metadata"), OtherColumn("validated_at"), CreatedAt, UpdatedAt}

  /** A key of one of the three providers; the time of its validation alone may be null. */
  predicate KeyOk(r: Row) {
    && r.Keys == KEY_KEYS
    && r[Id].Opaque? && r[OrgId].Opaque?
    && (r[Provider] == Text("openai") || r[Provider] == Text("anthropic") || r[Provider] == Text("vertex_ai"))
    && r[OtherColumn("ciphertext")].Opaque? && r[OtherColumn("nonce")].Opaque? && r[OtherColumn("auth_tag")].Opaque?
    && r[OtherColumn("metadata")].Opaque? && r[CreatedAt].Opaque? && r[UpdatedAt].Opaque?
    && (r[OtherColumn("validated_at")] == Null || r[OtherColumn("validated_at")].Opaque?)
  }

  function KeyColumnsOver(provider: nat): map<Column, ColumnDef> {
    map[Id := MANDATORY, OrgId := MANDATORY, Provider := ColumnDef(Enum(provider), false, None),
        OtherColumn("ciphertext") := MANDATORY, OtherColumn("nonce") := MANDATORY, OtherColumn("auth_tag") := MANDATORY,
        OtherColumn("metadata") := STAMPED, OtherColumn("validated_at") := OPTIONAL,
        CreatedAt := STAMPED, UpdatedAt := STAMPED]
  }

  lemma KeyColumnsAre(db: Db)
    ensures Defs(WithProviders(db), KEY_COLUMNS) == KeyColumnsOver(db.nextOid)
  {
  }

  lemma KeyFitsIff(enums: map<nat, seq<string>>, provider: nat, r: Row)
    requires provider in enums && enums[provider] == ["openai", "anthropic", "vertex_ai"]
    ensures RowOk(enums, KeyColumnsOver(provider), r) <==> KeyOk(r)
  {
  }

  lemma PairClashIff(a: Row, b: Row)
    requires OrgId in a && OrgId in b && Provider in a && Provider in b && a[OrgId] != Null && a[Provider] != Null
    ensures Clash(PAIR_INDEX, a, b) <==> a[OrgId] == b[OrgId] && a[Provider] == b[Provider]
  {
    assert OrgId in PAIR_INDEX.columns && Provider in PAIR_INDEX.columns;
  }

  ghost predicate KeysTable(d: Db, o: nat) {
    && HasKeys(d) && Keys(d) == Table(KeyColumnsOver(o), map[], map[])
    && o in d.enums && d.enums[o] == ["openai", "anthropic", "vertex_ai"]
    && UqOrgProvider in d.indexes && d.indexes[UqOrgProvider] == PAIR_INDEX
    && (forall k :: k in d.indexes && d.indexes[k].table == ProviderKeys ==> k == UqOrgProvider)
  }

  lemma OriginIs(db: Db)
    requires Consistent(db) && ProviderKeys !in db.tables
    ensures KeysTable(Origin(db, ORG_COLUMNS, KEY_COLUMNS), db.nextOid)
  {
    forall k | k in db.indexes ensures db.indexes[k].table in db.tables {
      assert IndexOk(db.tables, db.indexes[k]);
    }
    KeyColumnsAre(db);
  }

  /** One key per org and provider. */
  ghost predicate KeysOk(rows: map<RowId, Row>) {
    && (forall i :: i in rows ==> KeyOk(rows[i]))
    && (forall i, j :: i in rows && j in rows && i != j ==>
          !(rows[i][OrgId] == rows[j][OrgId] && rows[i][Provider] == rows[j][Provider]))
  }

  lemma KeysTableAdmitsIff(d: Db, o: nat, rows: map<RowId, Row>)
    requires KeysTable(d, o)
    ensures Admits(d, ProviderKeys, rows) <==> KeysOk(rows)
  {
    AdmitsPointwise(d, ProviderKeys, rows);
    forall i | i in rows ensures AdmitsRow(d, ProviderKeys, rows[i]) <==> KeyOk(rows[i]) {
      KeyFitsIff(d.enums, o, rows[i]);
    }
    forall i, j | i in rows && j in rows && KeyOk(rows[i]) && KeyOk(rows[j])
      ensures AdmitsBoth(d, ProviderKeys, rows[i], rows[j]) <==>
                !(rows[i][OrgId] == rows[j][OrgId] && rows[i][Provider] == rows[j][Provider])
    {
      PairClashIff(rows[i], rows[j]);
    }
  }

  lemma Upgrade0001Gives(db: Db)
    requires NamesFree(db)
    ensures Run(db, UPGRADE_0001) == Ok(Origin(db, ORG_COLUMNS, KEY_COLUMNS))
  {
    KeysFit();
    KeyTypesKnown();
    ScriptRuns(db, ORG_COLUMNS, KEY_COLUMNS);
  }

  /** After 0001 the table can hold exactly the rows that fit its columns, one per org and provider. */
  lemma KeysAfter0001Iff(db: Db, rows: map<RowId, Row>)
    requires Consistent(db) && NamesFree(db)
    ensures var d := Run(db, UPGRADE_0001);
            d.Ok? && ProviderKeys in d.value.tables && (Admits(d.value, ProviderKeys, rows) <==> KeysOk(rows))
  {
    Upgrade0001Gives(db);
    OriginIs(db);
    KeysTableAdmitsIff(Origin(db, ORG_COLUMNS, KEY_COLUMNS), db.nextOid, rows);
  }

  lemma OrgColumnsAre(db: Db)
    ensures Defs(WithProviders(db), ORG_COLUMNS) == map[Id := MANDATORY, OtherColumn("name") := MANDATORY, CreatedAt := STAMPED]
  {
  }

  /** The columns of 0001. */
  lemma ColumnsOf0001(db: Db)
    requires Consistent(db) && NamesFree(db)
    ensures var d := Run(db, UPGRADE_0001);
            && d.Ok? && ProviderKeys in d.value.tables && OtherTable("orgs") in d.value.tables
            && d.value.tables[OtherTable("orgs")].columns ==
                 map[Id := MANDATORY, OtherColumn("name") := MANDATORY, CreatedAt := STAMPED]
            && d.value.tables[ProviderKeys].columns == map[
                 Id := MANDATORY, OrgId := MANDATORY, Provider := ColumnDef(Enum(db.nextOid), false, None),
                 OtherColumn("ciphertext") := MANDATORY, OtherColumn("nonce") := MANDATORY,
                 OtherColumn("auth_tag") := MANDATORY, OtherColumn("metadata") := STAMPED,
                 OtherColumn("validated_at") := OPTIONAL, CreatedAt := STAMPED, UpdatedAt := STAMPED]
  {
    Upgrade0001Gives(db);
    OriginIs(db);
    OrgColumnsAre(db);
  }

  // ---------------------------------------------------------------- what 0023 changes

  /** The columns that 0023 adds: a label, two flags, and a target which may be null. */
  predicate AddedOkIn(r: Row) {
    && LabelColumn in r && r[LabelColumn].Text?
    && IsPrimary in r && r[IsPrimary].Bool?
    && FailoverEnabled in r && r[FailoverEnabled].Bool?
    && FailoverTargetId in r && (r[FailoverTargetId] == Null || r[FailoverTargetId].Opaque?)
  }

  predicate SamePair(a: Row, b: Row) {
    Get(a, OrgId) == Get(b, OrgId) && Get(a, Provider) == Get(b, Provider)
  }

  /** Two keys of a pair differ in their labels, and one of them at least is not primary. */
  predicate LabelsApart(a: Row, b: Row) {
    SamePair(a, b) ==> Get(a, LabelColumn) != Get(b, LabelColumn) && !(Get(a, IsPrimary) == Get(b, IsPrimary) == Bool(true))
  }

  lemma WiderRowIff(enums: map<nat, seq<string>>, columns: map<Column, ColumnDef>, r: Row)
    requires ADDED !! columns.Keys
    ensures RowOk(enums, NewColumns(columns), r) <==> AddedOkIn(r) && RowOk(enums, columns, r - ADDED)
  {
    var wide, was := NewColumns(columns), r - ADDED;
    assert wide.Keys == columns.Keys + ADDED;
    if RowOk(enums, wide, r) {
      assert wide[LabelColumn] == LABEL && wide[IsPrimary] == FLAG && wide[FailoverEnabled] == FLAG && wide[FailoverTargetId] == TARGET;
      assert LabelColumn in wide && IsPrimary in wide && FailoverEnabled in wide && FailoverTargetId in wide;
      assert was.Keys == columns.Keys;
      assert forall c :: c in columns ==> wide[c] == columns[c] && was[c] == r[c];
    }
    if AddedOkIn(r) && RowOk(enums, columns, was) {
      assert r.Keys == was.Keys + ADDED;
    }
  }

  lemma OldCheckSame(db: Db, r: Row, k: CheckName)
    requires Schema0022(db) && k in Keys(db).checks
    ensures Eval(Keys(db).checks[k], r) == Eval(Keys(db).checks[k], r - ADDED)
  {
    assert TableOk(db.enums, Keys(db));
    EvalSame(Keys(db).columns, Keys(db).checks[k], r, r - ADDED);
  }

  lemma OldIndexSame(db: Db, a: Row, b: Row, k: IndexName)
    requires Schema0022(db) && k in db.indexes && db.indexes[k].table == ProviderKeys
    ensures Clash(db.indexes[k], a, b) <==> Clash(db.indexes[k], a - ADDED, b - ADDED)
  {
    var ix := db.indexes[k];
    assert IndexOk(db.tables, ix);
    EvalSame(Keys(db).columns, ix.filter, a, a - ADDED);
    EvalSame(Keys(db).columns, ix.filter, b, b - ADDED);
    assert forall c <- ix.columns :: Get(a, c) == Get(a - ADDED, c) && Get(b, c) == Get(b - ADDED, c);
  }

  ghost predicate ApartIn(indexes: map<IndexName, Index>, a: Row, b: Row) {
    forall k :: k in indexes && indexes[k].table == ProviderKeys && indexes[k].unique ==> !Clash(indexes[k], a, b)
  }

  /** By the unique indexes other than the one that 0023 drops. */
  ghost predicate OthersApart(db: Db, a: Row, b: Row) {
    ApartIn(db.indexes - {UqOrgProvider}, a, b)
  }

  lemma OneMoreIndex(indexes: map<IndexName, Index>, k: IndexName, ix: Index, a: Row, b: Row)
    requires k !in indexes && ix.table == ProviderKeys
    ensures ApartIn(indexes[k := ix], a, b) <==> ApartIn(indexes, a, b) && (ix.unique ==> !Clash(ix, a, b))
  {
    assert indexes[k := ix][k] == ix;
    assert forall n :: n in indexes ==> n in indexes[k := ix] && indexes[k := ix][n] == indexes[n];
  }

  lemma NewRowIff(db: Db, r: Row)
    requires Schema0022(db)
    ensures AdmitsRow(Upgraded(db), ProviderKeys, r) <==> AddedOkIn(r) && AdmitsRow(db, ProviderKeys, r - ADDED)
  {
    WiderRowIff(db.enums, Keys(db).columns, r);
    forall k | k in Keys(db).checks ensures Eval(Keys(db).checks[k], r) == Eval(Keys(db).checks[k], r - ADDED) {
      OldCheckSame(db, r, k);
    }
  }

  lemma NewIndexesIff(a: Row, b: Row)
    requires AddedOkIn(a) && AddedOkIn(b) && Get(a, OrgId) != Null && Get(a, Provider) != Null
    ensures LabelsApart(a, b) <==> !Clash(LABEL_INDEX, a, b) && !Clash(PRIMARY_INDEX, a, b)
  {
    assert OrgId in LABEL_INDEX.columns && Provider in LABEL_INDEX.columns && LabelColumn in LABEL_INDEX.columns;
    assert OrgId in PRIMARY_INDEX.columns && Provider in PRIMARY_INDEX.columns;
  }

  lemma NewPairIff(db: Db, a: Row, b: Row)
    requires Schema0022(db) && AdmitsRow(Upgraded(db), ProviderKeys, a) && AdmitsRow(Upgraded(db), ProviderKeys, b)
    ensures AdmitsBoth(Upgraded(db), ProviderKeys, a, b) <==> LabelsApart(a, b) && OthersApart(db, a - ADDED, b - ADDED)
  {
    NewRowIff(db, a);
    NewRowIff(db, b);
    PairIsThere(db, a);
    NewIndexesIff(a, b);
    forall k | k in db.indexes && db.indexes[k].table == ProviderKeys
      ensures Clash(db.indexes[k], a, b) <==> Clash(db.indexes[k], a - ADDED, b - ADDED)
    {
      OldIndexSame(db, a, b, k);
    }
    UpgradedAdmitsBothIff(db, a, b);
  }

  lemma PairIsThere(db: Db, a: Row)
    requires Schema0022(db) && AdmitsRow(db, ProviderKeys, a - ADDED)
    ensures Get(a, OrgId) != Null && Get(a, Provider) != Null
  {
    var was := a - ADDED;
    assert OrgId in was && Provider in was;
  }

  lemma UpgradedAdmitsBothIff(db: Db, a: Row, b: Row)
    requires Schema0022(db)
    ensures AdmitsBoth(Upgraded(db), ProviderKeys, a, b) <==>
              !Clash(LABEL_INDEX, a, b) && !Clash(PRIMARY_INDEX, a, b) && OthersApart(db, a, b)
  {
    var kept := db.indexes - {UqOrgProvider};
    OneMoreIndex(kept, UqOrgProviderLabel, LABEL_INDEX, a, b);
    OneMoreIndex(kept[UqOrgProviderLabel := LABEL_INDEX], UqOnePrimary, PRIMARY_INDEX, a, b);
    OneMoreIndex(kept[UqOrgProviderLabel := LABEL_INDEX][UqOnePrimary := PRIMARY_INDEX], IxFailoverTarget, TARGET_INDEX, a, b);
    assert AdmitsBoth(Upgraded(db), ProviderKeys, a, b) <==> ApartIn(Upgraded(db).indexes, a, b);
  }

  /** After 0023 the table can hold exactly the rows whose old columns it could hold before, with any
      label, flags and target; instead of one key per org and provider it now wants one label per
      key of the pair and at most one primary key. Every other rule stays as it was. */
  lemma KeysAfter0023Iff(db: Db, rows: map<RowId, Row>)
    requires Schema0022(db)
    ensures var d := Run(db, UPGRADE_0023);
            && d.Ok? && ProviderKeys in d.value.tables
            && (Admits(d.value, ProviderKeys, rows) <==>
                  && (forall i :: i in rows ==> AddedOkIn(rows[i]) && AdmitsRow(db, ProviderKeys, rows[i] - ADDED))
                  && (forall i, j :: i in rows && j in rows && i != j ==>
                        LabelsApart(rows[i], rows[j]) && OthersApart(db, rows[i] - ADDED, rows[j] - ADDED)))
  {
    UpgradeRuns(db);
    UpgradedAdmitsIff(db, rows);
  }

  lemma UpgradedAdmitsIff(db: Db, rows: map<RowId, Row>)
    requires Schema0022(db)
    ensures Admits(Upgraded(db), ProviderKeys, rows) <==>
              && (forall i :: i in rows ==> AddedOkIn(rows[i]) && AdmitsRow(db, ProviderKeys, rows[i] - ADDED))
              && (forall i, j :: i in rows && j in rows && i != j ==>
                    LabelsApart(rows[i], rows[j]) && OthersApart(db, rows[i] - ADDED, rows[j] - ADDED))
  {
    AdmitsPointwise(Upgraded(db), ProviderKeys, rows);
    forall i | i in rows
      ensures AdmitsRow(Upgraded(db), ProviderKeys, rows[i]) <==> AddedOkIn(rows[i]) && AdmitsRow(db, ProviderKeys, rows[i] - ADDED)
    {
      NewRowIff(db, rows[i]);
    }
    forall i, j | i in rows && j in rows && AdmitsRow(Upgraded(db), ProviderKeys, rows[i]) && AdmitsRow(Upgraded(db), ProviderKeys, rows[j])
      ensures AdmitsBoth(Upgraded(db), ProviderKeys, rows[i], rows[j]) <==>
                LabelsApart(rows[i], rows[j]) && OthersApart(db, rows[i] - ADDED, rows[j] - ADDED)
    {
      NewPairIff(db, rows[i], rows[j]);
    }
  }

  /** The added columns, with the label's placeholder default gone. */
  lemma ColumnsOf0023(db: Db)
    requires Schema0022(db)
    ensures var d := Run(db, UPGRADE_0023);
            && d.Ok? && ProviderKeys in d.value.tables
            && d.value.tables[ProviderKeys].columns == db.tables[ProviderKeys].columns
                 [LabelColumn := ColumnDef(Basic(TextKind), false, None)]
                 [IsPrimary := ColumnDef(Basic(BoolKind), false, Some(Bool(false)))]
                 [FailoverEnabled := ColumnDef(Basic(BoolKind), false, Some(Bool(false)))]
                 [FailoverTargetId := ColumnDef(Basic(OpaqueKind), true, None)]
  {
    UpgradeRuns(db);
  }
}
