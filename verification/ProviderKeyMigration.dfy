/** Migration 0023 (several keys per provider) on the UNIQUE(org_id, provider) of 0001
    (backend/alembic/versions). */
module ProviderKeyMigration {
  import opened Options
  import opened Catalog
  import opened CatalogInvariant

  const PENDING := "__pending__"
  const DEFAULT_LABEL := "Default"
  const BACKFILL: map<Column, Value> := map[LabelColumn := Text(DEFAULT_LABEL), IsPrimary := Bool(true)]
  const ADDED: set<Column> := {LabelColumn, IsPrimary, FailoverEnabled, FailoverTargetId}

  const ADD_COLUMNS := [
    AddColumn(ProviderKeys, LabelColumn, BasicRef(TextKind), false, Some(Text(PENDING))),
    AddColumn(ProviderKeys, IsPrimary, BasicRef(BoolKind), false, Some(Bool(false))),
    AddColumn(ProviderKeys, FailoverEnabled, BasicRef(BoolKind), false, Some(Bool(false))),
    AddColumn(ProviderKeys, FailoverTargetId, BasicRef(OpaqueKind), true, None)]

  const BACKFILL_LABELS := [
    Update(ProviderKeys, BACKFILL, Equals(LabelColumn, PENDING)),
    DropDefault(ProviderKeys, LabelColumn)]

  const RELAX_UNIQUENESS := [
    DropUnique(UqOrgProvider),
    CreateUnique(UqOrgProviderLabel, ProviderKeys, [OrgId, Provider, LabelColumn]),
    CreateIndex(UqOnePrimary, ProviderKeys, [OrgId, Provider], true, IsTrue(IsPrimary)),
    CreateIndex(IxFailoverTarget, ProviderKeys, [FailoverTargetId], false, Always)]

  const UPGRADE_0023 := ADD_COLUMNS + BACKFILL_LABELS + RELAX_UNIQUENESS

  const RESTORE_UNIQUENESS := [
    DropIndex(IxFailoverTarget), DropIndex(UqOnePrimary), DropUnique(UqOrgProviderLabel),
    CreateUnique(UqOrgProvider, ProviderKeys, [OrgId, Provider])]

  const DROP_COLUMNS := [
    DropColumn(ProviderKeys, FailoverTargetId), DropColumn(ProviderKeys, FailoverEnabled),
    DropColumn(ProviderKeys, IsPrimary), DropColumn(ProviderKeys, LabelColumn)]

  const DOWNGRADE_0023 := RESTORE_UNIQUENESS + DROP_COLUMNS

  // ---------------------------------------------------------------- schemas

  const PAIR_INDEX := Index(ProviderKeys, [OrgId, Provider], true, true, EAlways)
  const LABEL_INDEX := Index(ProviderKeys, [OrgId, Provider, LabelColumn], true, true, EAlways)
  const PRIMARY_INDEX := Index(ProviderKeys, [OrgId, Provider], true, false, EIsTrue(IsPrimary))
  const TARGET_INDEX := Index(ProviderKeys, [FailoverTargetId], false, false, EAlways)

  const LABEL := ColumnDef(Basic(TextKind), false, None)
  const PENDING_LABEL := ColumnDef(Basic(TextKind), false, Some(Text(PENDING)))
  const FLAG := ColumnDef(Basic(BoolKind), false, Some(Bool(false)))
  const TARGET := ColumnDef(Basic(OpaqueKind), true, None)

  predicate HasKeys(db: Db) {
    ProviderKeys in db.tables
  }

  function Keys(db: Db): Table
    requires HasKeys(db)
  {
    db.tables[ProviderKeys]
  }

  predicate Required(columns: map<Column, ColumnDef>, c: Column) {
    c in columns && !columns[c].nullable
  }

  /** Any consistent database in which the keys have UNIQUE(org_id, provider) and the names of 0023
      are free. */
  ghost predicate Schema0022(db: Db) {
    && Consistent(db) && HasKeys(db)
    && Required(Keys(db).columns, OrgId) && Required(Keys(db).columns, Provider)
    && ADDED !! Keys(db).columns.Keys
    && UqOrgProvider in db.indexes && db.indexes[UqOrgProvider] == PAIR_INDEX
    && UqOrgProviderLabel !in db.indexes && UqOnePrimary !in db.indexes && IxFailoverTarget !in db.indexes
  }

  ghost predicate AddedOk(columns: map<Column, ColumnDef>) {
    && LabelColumn in columns && columns[LabelColumn] == LABEL
    && IsPrimary in columns && columns[IsPrimary] == FLAG
    && FailoverEnabled in columns && columns[FailoverEnabled] == FLAG
    && FailoverTargetId in columns && columns[FailoverTargetId] == TARGET
  }

  ghost predicate NewIndexesOk(db: Db) {
    && UqOrgProvider !in db.indexes
    && UqOrgProviderLabel in db.indexes && db.indexes[UqOrgProviderLabel] == LABEL_INDEX
    && UqOnePrimary in db.indexes && db.indexes[UqOnePrimary] == PRIMARY_INDEX
    && IxFailoverTarget in db.indexes && db.indexes[IxFailoverTarget] == TARGET_INDEX
  }

  const NEW_INDEXES: set<IndexName> := {UqOrgProviderLabel, UqOnePrimary, IxFailoverTarget}

  /** No other index or CHECK involves the added columns. */
  ghost predicate AddedUnused(db: Db)
    requires HasKeys(db)
  {
    && (forall k, c :: k in db.indexes && k !in NEW_INDEXES && c in ADDED ==> !Uses(db.indexes[k], ProviderKeys, c))
    && (forall k, c :: k in Keys(db).checks && c in ADDED ==> !Mentions(Keys(db).checks[k], c))
  }

  ghost predicate Schema0023(db: Db) {
    && Consistent(db) && HasKeys(db)
    && Required(Keys(db).columns, OrgId) && Required(Keys(db).columns, Provider)
    && AddedOk(Keys(db).columns) && NewIndexesOk(db) && AddedUnused(db)
  }

  // ---------------------------------------------------------------- one statement at a time

  function At(db: Db, t: Table): Db {
    SetTable(db, ProviderKeys, t)
  }

  function Wider(t: Table, c: Column, d: ColumnDef, v: Value): Table {
    Table(t.columns[c := d], WithColumn(t.rows, c, v), t.checks)
  }

  function Narrower(t: Table, c: Column): Table {
    Table(t.columns - {c}, WithoutColumn(t.rows, c), t.checks)
  }

  lemma AtTwice(db: Db, a: Table, b: Table)
    ensures At(At(db, a), b) == At(db, b)
  {
  }

  lemma AddRuns(db: Db, c: Column, kind: Kind, nullable: bool, default: Option<Value>, v: Value)
    requires HasKeys(db) && c !in Keys(db).columns
    requires v == if default.Some? then default.value else Null
    requires ValueOk(db.enums, ColumnDef(Basic(kind), nullable, default), v)
    ensures Perform(db, AddColumn(ProviderKeys, c, BasicRef(kind), nullable, default)) ==
              Ok(At(db, Wider(Keys(db), c, ColumnDef(Basic(kind), nullable, default), v)))
  {
  }

  lemma DropRuns(db: Db, c: Column)
    requires HasKeys(db) && c in Keys(db).columns
    requires forall k :: k in db.indexes ==> !Uses(db.indexes[k], ProviderKeys, c)
    requires forall k :: k in Keys(db).checks ==> !Mentions(Keys(db).checks[k], c)
    ensures Perform(db, DropColumn(ProviderKeys, c)) == Ok(At(db, Narrower(Keys(db), c)))
  {
    ChecksStay(Keys(db).checks, c);
    IndexesStay(db.indexes, ProviderKeys, c);
    OnlyColumnLost(db, ProviderKeys, c);
  }

  // ---------------------------------------------------------------- upgrade

  function PendingColumns(t: Table): Table {
    Wider(Wider(Wider(Wider(t, LabelColumn, PENDING_LABEL, Text(PENDING)),
                      IsPrimary, FLAG, Bool(false)), FailoverEnabled, FLAG, Bool(false)),
          FailoverTargetId, TARGET, Null)
  }

  function Pending(r: Row): Row {
    r[LabelColumn := Text(PENDING)][IsPrimary := Bool(false)][FailoverEnabled := Bool(false)][FailoverTargetId := Null]
  }

  /** A row that existed before 0023, as 0023 leaves it. */
  function Defaulted(r: Row): Row {
    r[LabelColumn := Text(DEFAULT_LABEL)][IsPrimary := Bool(true)][FailoverEnabled := Bool(false)][FailoverTargetId := Null]
  }

  function DefaultedRows(rows: map<RowId, Row>): map<RowId, Row> {
    map i | i in rows :: Defaulted(rows[i])
  }

  function NewColumns(columns: map<Column, ColumnDef>): map<Column, ColumnDef> {
    columns[LabelColumn := LABEL][IsPrimary := FLAG][FailoverEnabled := FLAG][FailoverTargetId := TARGET]
  }

  function UpgradedKeys(t: Table): Table {
    Table(NewColumns(t.columns), DefaultedRows(t.rows), t.checks)
  }

  function Upgraded(db: Db): Db
    requires HasKeys(db)
  {
    At(db, UpgradedKeys(Keys(db))).(indexes :=
      (db.indexes - {UqOrgProvider})[UqOrgProviderLabel := LABEL_INDEX][UqOnePrimary := PRIMARY_INDEX]
                                    [IxFailoverTarget := TARGET_INDEX])
  }

  lemma AddColumnsRun(db: Db)
    requires HasKeys(db) && ADDED !! Keys(db).columns.Keys
    ensures Run(db, ADD_COLUMNS) == Ok(At(db, PendingColumns(Keys(db))))
  {
    assert LabelColumn in ADDED && IsPrimary in ADDED && FailoverEnabled in ADDED && FailoverTargetId in ADDED;
    var t := Keys(db);
    var t1 := Wider(t, LabelColumn, PENDING_LABEL, Text(PENDING));
    var t2 := Wider(t1, IsPrimary, FLAG, Bool(false));
    var t3 := Wider(t2, FailoverEnabled, FLAG, Bool(false));
    var t4 := PendingColumns(t);
    AddRuns(db, LabelColumn, TextKind, false, Some(Text(PENDING)), Text(PENDING));
    AddRuns(At(db, t1), IsPrimary, BoolKind, false, Some(Bool(false)), Bool(false));
    AddRuns(At(db, t2), FailoverEnabled, BoolKind, false, Some(Bool(false)), Bool(false));
    AddRuns(At(db, t3), FailoverTargetId, OpaqueKind, true, None, Null);
    AtTwice(db, t1, t2);
    AtTwice(db, t2, t3);
    AtTwice(db, t3, t4);
    RunStep(db, ADD_COLUMNS, 0, Ok(At(db, t1)));
    RunStep(At(db, t1), ADD_COLUMNS, 1, Ok(At(db, t2)));
    RunStep(At(db, t2), ADD_COLUMNS, 2, Ok(At(db, t3)));
    RunStep(At(db, t3), ADD_COLUMNS, 3, Ok(At(db, t4)));
  }

  const IS_PENDING := EEquals(LabelColumn, Basic(TextKind), PENDING)

  /** The backfill reaches every row that was there before. */
  lemma BackfillRow(r: Row)
    ensures UpdatedRow(Pending(r), IS_PENDING, BACKFILL) == Defaulted(r)
  {
    assert Eval(IS_PENDING, Pending(r)) == Yes;
  }

  lemma BackfillRows(t: Table)
    ensures UpdatedRows(PendingColumns(t).rows, IS_PENDING, BACKFILL) == DefaultedRows(t.rows)
  {
    var rows := PendingColumns(t).rows;
    forall i | i in t.rows ensures UpdatedRow(rows[i], IS_PENDING, BACKFILL) == Defaulted(t.rows[i]) {
      BackfillRow(t.rows[i]);
    }
  }

  lemma DefaultedAgrees(columns: map<Column, ColumnDef>, rows: map<RowId, Row>)
    requires ADDED !! columns.Keys
    ensures RowsAgree(columns, rows, DefaultedRows(rows))
  {
    forall i | i in rows ensures RowAgrees(columns, rows[i], DefaultedRows(rows)[i]) {
      forall c | c in columns ensures Get(rows[i], c) == Get(Defaulted(rows[i]), c) {
        assert c !in ADDED;
      }
    }
  }

  /** What other CHECKs and unique indexes demand of the old columns still holds. */
  lemma BackfillKeepsConstraints(db: Db)
    requires Consistent(db) && HasKeys(db) && ADDED !! Keys(db).columns.Keys
    ensures forall k :: k in Keys(db).checks ==> Satisfies(Keys(db).checks[k], DefaultedRows(Keys(db).rows))
    ensures forall k :: k in db.indexes && db.indexes[k].table == ProviderKeys ==>
              Unique(db.indexes[k], DefaultedRows(Keys(db).rows))
  {
    var t := Keys(db);
    var after := DefaultedRows(t.rows);
    DefaultedAgrees(t.columns, t.rows);
    assert TableOk(db.enums, t);
    forall k | k in t.checks ensures Satisfies(t.checks[k], after) {
      SatisfiesSame(t.columns, t.checks[k], t.rows, after);
    }
    forall k | k in db.indexes && db.indexes[k].table == ProviderKeys ensures Unique(db.indexes[k], after) {
      assert IndexOk(db.tables, db.indexes[k]);
      UniqueSame(t.columns, db.indexes[k], t.rows, after);
    }
  }

  lemma BackfillRuns(db: Db, t: Table)
    requires HasKeys(db) && Keys(db) == PendingColumns(t)
    requires forall k :: k in t.checks ==> Satisfies(t.checks[k], DefaultedRows(t.rows))
    requires forall k :: k in db.indexes && db.indexes[k].table == ProviderKeys ==>
               Unique(db.indexes[k], DefaultedRows(t.rows))
    ensures Run(db, BACKFILL_LABELS) == Ok(At(db, UpgradedKeys(t)))
  {
    var p := PendingColumns(t);
    var q := p.(rows := DefaultedRows(t.rows));
    PendingColumnsAre(t);
    BackfillRows(t);
    UpdateRuns(db, p, DefaultedRows(t.rows));
    RunStep(db, BACKFILL_LABELS, 0, Ok(At(db, q)));
    assert p.columns[LabelColumn := LABEL] == NewColumns(t.columns);
    DefaultDropped(At(db, q), q, UpgradedKeys(t));
    AtTwice(db, q, UpgradedKeys(t));
    RunStep(At(db, q), BACKFILL_LABELS, 1, Ok(At(db, UpgradedKeys(t))));
  }

  lemma PendingColumnsAre(t: Table)
    ensures var p := PendingColumns(t);
            && LabelColumn in p.columns && p.columns[LabelColumn] == PENDING_LABEL
            && IsPrimary in p.columns && p.columns[IsPrimary] == FLAG && p.checks == t.checks
  {
  }

  lemma UpdateRuns(db: Db, p: Table, rows: map<RowId, Row>)
    requires HasKeys(db) && Keys(db) == p && UpdatedRows(p.rows, IS_PENDING, BACKFILL) == rows
    requires LabelColumn in p.columns && p.columns[LabelColumn] == PENDING_LABEL
    requires IsPrimary in p.columns && p.columns[IsPrimary] == FLAG
    requires forall k :: k in p.checks ==> Satisfies(p.checks[k], rows)
    requires forall k :: k in db.indexes && db.indexes[k].table == ProviderKeys ==> Unique(db.indexes[k], rows)
    ensures Perform(db, BACKFILL_LABELS[0]) == Ok(At(db, p.(rows := rows)))
  {
    assert Bind(p.columns, db.enums, Equals(LabelColumn, PENDING)) == Ok(IS_PENDING);
    assert forall k :: k in BACKFILL ==> k == LabelColumn || k == IsPrimary;
  }

  lemma DefaultDropped(db: Db, before: Table, after: Table)
    requires HasKeys(db) && Keys(db) == before && LabelColumn in before.columns
    requires before.columns[LabelColumn] == PENDING_LABEL
    requires after == before.(columns := before.columns[LabelColumn := LABEL])
    ensures Perform(db, DropDefault(ProviderKeys, LabelColumn)) == Ok(At(db, after))
  {
  }

  /** One key per pair means that neither wider constraint can be violated. */
  lemma PairUniqueImplies(rows: map<RowId, Row>)
    requires Unique(PAIR_INDEX, rows)
    ensures Unique(LABEL_INDEX, rows) && Unique(PRIMARY_INDEX, rows)
  {
    forall i, j | i in rows && j in rows && i != j
      ensures !Clash(LABEL_INDEX, rows[i], rows[j]) && !Clash(PRIMARY_INDEX, rows[i], rows[j])
    {
      assert !Clash(PAIR_INDEX, rows[i], rows[j]);
      assert OrgId in LABEL_INDEX.columns && Provider in LABEL_INDEX.columns;
      assert OrgId in PRIMARY_INDEX.columns && Provider in PRIMARY_INDEX.columns;
    }
  }

  lemma RelaxRuns(db: Db)
    requires HasKeys(db) && AddedOk(Keys(db).columns) && OrgId in Keys(db).columns && Provider in Keys(db).columns
    requires UqOrgProvider in db.indexes && db.indexes[UqOrgProvider] == PAIR_INDEX && Unique(PAIR_INDEX, Keys(db).rows)
    requires UqOrgProviderLabel !in db.indexes && UqOnePrimary !in db.indexes && IxFailoverTarget !in db.indexes
    ensures Run(db, RELAX_UNIQUENESS) ==
              Ok(db.(indexes := (db.indexes - {UqOrgProvider})[UqOrgProviderLabel := LABEL_INDEX]
                                [UqOnePrimary := PRIMARY_INDEX][IxFailoverTarget := TARGET_INDEX]))
  {
    PairUniqueImplies(Keys(db).rows);
    var d1 := db.(indexes := db.indexes - {UqOrgProvider});
    var d2 := d1.(indexes := d1.indexes[UqOrgProviderLabel := LABEL_INDEX]);
    var d3 := d2.(indexes := d2.indexes[UqOnePrimary := PRIMARY_INDEX]);
    var d4 := d3.(indexes := d3.indexes[IxFailoverTarget := TARGET_INDEX]);
    RunStep(db, RELAX_UNIQUENESS, 0, Ok(d1));
    RunStep(d1, RELAX_UNIQUENESS, 1, Ok(d2));
    RunStep(d2, RELAX_UNIQUENESS, 2, Ok(d3));
    RunStep(d3, RELAX_UNIQUENESS, 3, Ok(d4));
  }

  /** From every table that obeys UNIQUE(org_id, provider), no statement of 0023 is refused. */
  lemma UpgradeRuns(db: Db)
    requires Schema0022(db)
    ensures Run(db, UPGRADE_0023) == Ok(Upgraded(db))
  {
    var t := Keys(db);
    var d1, d2 := At(db, PendingColumns(t)), At(db, UpgradedKeys(t));
    AddColumnsRun(db);
    BackfillKeepsConstraints(db);
    BackfillRuns(d1, t);
    AtTwice(db, PendingColumns(t), UpgradedKeys(t));
    RelaxRuns(d2);
    RunThree(db, ADD_COLUMNS, BACKFILL_LABELS, RELAX_UNIQUENESS, d1);
  }

  predicate SamePair(a: Row, b: Row) {
    Get(a, OrgId) == Get(b, OrgId) && Get(a, Provider) == Get(b, Provider)
  }

  predicate Primary(r: Row) {
    Get(r, IsPrimary) == Bool(true)
  }

  lemma PairsAreKnown(db: Db, i: RowId)
    requires Consistent(db) && HasKeys(db) && i in Keys(db).rows
    requires Required(Keys(db).columns, OrgId) && Required(Keys(db).columns, Provider)
    ensures Get(Keys(db).rows[i], OrgId) != Null && Get(Keys(db).rows[i], Provider) != Null
  {
    assert TableOk(db.enums, Keys(db));
    assert RowOk(db.enums, Keys(db).columns, Keys(db).rows[i]);
  }

  /** No old value of any row is touched, and every row becomes a primary key called Default with
      failover off. */
  lemma UpgradeKeepsValues(db: Db, i: RowId)
    requires HasKeys(db) && ADDED !! Keys(db).columns.Keys && i in Keys(db).rows
    ensures var before, after := Keys(db).rows, Keys(Upgraded(db)).rows;
            && after.Keys == before.Keys
            && (forall c :: c in Keys(db).columns ==> Get(after[i], c) == Get(before[i], c))
            && Get(after[i], LabelColumn) == Text(DEFAULT_LABEL) && Primary(after[i])
            && Get(after[i], FailoverEnabled) == Bool(false) && Get(after[i], FailoverTargetId) == Null
  {
    var before, after := Keys(db).rows, Keys(Upgraded(db)).rows;
    DefaultedAgrees(Keys(db).columns, before);
    assert RowAgrees(Keys(db).columns, before[i], after[i]);
  }

  /** Each pair that has a key has exactly that one, and it is primary. */
  lemma OnePrimaryPerPair(db: Db, i: RowId)
    requires Schema0022(db) && i in Keys(db).rows
    ensures var after := Keys(Upgraded(db)).rows;
            && i in after && Primary(after[i])
            && forall j :: j in after && SamePair(after[j], after[i]) ==> j == i
  {
    var before, after := Keys(db).rows, Keys(Upgraded(db)).rows;
    UpgradeKeepsValues(db, i);
    assert IndexOk(db.tables, db.indexes[UqOrgProvider]);
    PairUniqueIff(db);
    forall j | j in after && SamePair(after[j], after[i]) ensures j == i {
      UpgradeKeepsValues(db, j);
      assert SamePair(before[j], before[i]);
    }
  }

  lemma UpgradedAddedUnused(db: Db)
    requires Consistent(db) && HasKeys(db) && ADDED !! Keys(db).columns.Keys
    ensures AddedUnused(Upgraded(db))
  {
    assert TableOk(db.enums, Keys(db));
    forall k, c | k in db.indexes && c in ADDED ensures !Uses(db.indexes[k], ProviderKeys, c) {
      assert IndexOk(db.tables, db.indexes[k]);
      if db.indexes[k].table == ProviderKeys {
        UnknownColumnNotMentioned(Keys(db).columns, db.indexes[k].filter, c);
      }
    }
    forall k, c | k in Keys(db).checks && c in ADDED ensures !Mentions(Keys(db).checks[k], c) {
      UnknownColumnNotMentioned(Keys(db).columns, Keys(db).checks[k], c);
    }
  }

  lemma UpgradeGivesSchema0023(db: Db)
    requires Schema0022(db)
    ensures Schema0023(Upgraded(db))
  {
    UpgradedIsConsistent(db);
    UpgradedAddedUnused(db);
    UpgradedColumns(Keys(db).columns);
    UpgradedIndexes(db);
    AreSchema0023(Upgraded(db));
  }

  lemma UpgradedIsConsistent(db: Db)
    requires Schema0022(db)
    ensures Consistent(Upgraded(db))
  {
    UpgradeRuns(db);
    RunKeepsConsistent(db, UPGRADE_0023, 0);
  }

  lemma AreSchema0023(d: Db)
    requires Consistent(d) && HasKeys(d) && AddedOk(Keys(d).columns) && NewIndexesOk(d) && AddedUnused(d)
    requires Required(Keys(d).columns, OrgId) && Required(Keys(d).columns, Provider)
    ensures Schema0023(d)
  {
  }

  lemma UpgradedColumns(columns: map<Column, ColumnDef>)
    requires Required(columns, OrgId) && Required(columns, Provider)
    ensures AddedOk(NewColumns(columns)) && Required(NewColumns(columns), OrgId) && Required(NewColumns(columns), Provider)
  {
  }

  lemma UpgradedIndexes(db: Db)
    requires HasKeys(db)
    ensures NewIndexesOk(Upgraded(db))
  {
  }

  // ---------------------------------------------------------------- downgrade

  /** Some pair has two keys. */
  predicate SecondKey(rows: map<RowId, Row>) {
    exists i, j :: i in rows && j in rows && i != j && SamePair(rows[i], rows[j])
  }

  function WithoutAdded(rows: map<RowId, Row>): map<RowId, Row> {
    map i | i in rows :: rows[i] - ADDED
  }

  function DowngradedKeys(t: Table): Table {
    Table(t.columns - ADDED, WithoutAdded(t.rows), t.checks)
  }

  function OldIndexes(indexes: map<IndexName, Index>): map<IndexName, Index> {
    (indexes - NEW_INDEXES)[UqOrgProvider := PAIR_INDEX]
  }

  function Downgraded(db: Db): Db
    requires HasKeys(db)
  {
    At(db, DowngradedKeys(Keys(db))).(indexes := OldIndexes(db.indexes))
  }

  lemma PairUniqueIff(db: Db)
    requires Consistent(db) && HasKeys(db)
    requires Required(Keys(db).columns, OrgId) && Required(Keys(db).columns, Provider)
    ensures Unique(PAIR_INDEX, Keys(db).rows) <==> !SecondKey(Keys(db).rows)
  {
    var rows := Keys(db).rows;
    forall i, j | i in rows && j in rows ensures Clash(PAIR_INDEX, rows[i], rows[j]) <==> SamePair(rows[i], rows[j]) {
      PairsAreKnown(db, i);
      assert OrgId in PAIR_INDEX.columns && Provider in PAIR_INDEX.columns;
    }
  }

  lemma RestoreRuns(db: Db)
    requires HasKeys(db) && NewIndexesOk(db) && OrgId in Keys(db).columns && Provider in Keys(db).columns
    ensures Run(db, RESTORE_UNIQUENESS) ==
              if Unique(PAIR_INDEX, Keys(db).rows) then Ok(db.(indexes := OldIndexes(db.indexes))) else Err(DuplicateKey)
  {
    var d1 := db.(indexes := db.indexes - {IxFailoverTarget});
    var d2 := d1.(indexes := d1.indexes - {UqOnePrimary});
    var d3 := d2.(indexes := d2.indexes - {UqOrgProviderLabel});
    RunStep(db, RESTORE_UNIQUENESS, 0, Ok(d1));
    RunStep(d1, RESTORE_UNIQUENESS, 1, Ok(d2));
    RunStep(d2, RESTORE_UNIQUENESS, 2, Ok(d3));
    assert d3.indexes == db.indexes - NEW_INDEXES;
    RunStep(d3, RESTORE_UNIQUENESS, 3, Perform(d3, RESTORE_UNIQUENESS[3]));
  }

  lemma DropColumnsRun(db: Db)
    requires HasKeys(db) && AddedOk(Keys(db).columns)
    requires forall k, c :: k in db.indexes && c in ADDED ==> !Uses(db.indexes[k], ProviderKeys, c)
    requires forall k, c :: k in Keys(db).checks && c in ADDED ==> !Mentions(Keys(db).checks[k], c)
    ensures Run(db, DROP_COLUMNS) == Ok(At(db, DowngradedKeys(Keys(db))))
  {
    var t := Keys(db);
    var t1 := Narrower(t, FailoverTargetId);
    var t2 := Narrower(t1, FailoverEnabled);
    var t3 := Narrower(t2, IsPrimary);
    var t4 := Narrower(t3, LabelColumn);
    NarrowedFourTimes(t);
    DropRuns(db, FailoverTargetId);
    DropRuns(At(db, t1), FailoverEnabled);
    DropRuns(At(db, t2), IsPrimary);
    DropRuns(At(db, t3), LabelColumn);
    AtTwice(db, t1, t2);
    AtTwice(db, t2, t3);
    AtTwice(db, t3, t4);
    RunStep(db, DROP_COLUMNS, 0, Ok(At(db, t1)));
    RunStep(At(db, t1), DROP_COLUMNS, 1, Ok(At(db, t2)));
    RunStep(At(db, t2), DROP_COLUMNS, 2, Ok(At(db, t3)));
    RunStep(At(db, t3), DROP_COLUMNS, 3, Ok(At(db, t4)));
  }

  lemma NarrowedFourTimes(t: Table)
    ensures Narrower(Narrower(Narrower(Narrower(t, FailoverTargetId), FailoverEnabled), IsPrimary), LabelColumn) ==
              DowngradedKeys(t)
  {
    forall i | i in t.rows
      ensures t.rows[i] - {FailoverTargetId} - {FailoverEnabled} - {IsPrimary} - {LabelColumn} == t.rows[i] - ADDED
    {
    }
    assert t.columns - {FailoverTargetId} - {FailoverEnabled} - {IsPrimary} - {LabelColumn} == t.columns - ADDED;
  }

  /** 0023 can be undone exactly when no pair has a second key; every row then keeps all its old
      values. */
  lemma DowngradeRunsIff(db: Db)
    requires Schema0023(db)
    ensures Run(db, DOWNGRADE_0023) == if SecondKey(Keys(db).rows) then Err(DuplicateKey) else Ok(Downgraded(db))
    ensures var after := Keys(Downgraded(db)).rows;
            after.Keys == Keys(db).rows.Keys &&
            forall i, c :: i in after && c !in ADDED ==> Get(after[i], c) == Get(Keys(db).rows[i], c)
  {
    PairUniqueIff(db);
    RestoreRuns(db);
    RunConcat(db, RESTORE_UNIQUENESS, DROP_COLUMNS, 0);
    if !SecondKey(Keys(db).rows) {
      OldIndexesUseNoAdded(db);
      DropColumnsRun(db.(indexes := OldIndexes(db.indexes)));
    }
    DowngradeKeepsOldValues(db);
  }

  lemma OldIndexesUseNoAdded(db: Db)
    requires HasKeys(db) && AddedUnused(db)
    ensures forall k, c :: k in OldIndexes(db.indexes) && c in ADDED ==> !Uses(OldIndexes(db.indexes)[k], ProviderKeys, c)
  {
    forall c | c in ADDED ensures !Uses(PAIR_INDEX, ProviderKeys, c) {
      assert forall x <- PAIR_INDEX.columns :: x == OrgId || x == Provider;
    }
  }

  lemma DowngradeKeepsOldValues(db: Db)
    requires HasKeys(db)
    ensures var after := Keys(Downgraded(db)).rows;
            after.Keys == Keys(db).rows.Keys &&
            forall i, c :: i in after && c !in ADDED ==> Get(after[i], c) == Get(Keys(db).rows[i], c)
  {
  }

  /** Undoing 0023 at once gives back the very same database. */
  lemma DowngradeUndoesUpgrade(db: Db)
    requires Schema0022(db)
    ensures Run(db, UPGRADE_0023).Ok?
    ensures Run(Run(db, UPGRADE_0023).value, DOWNGRADE_0023) == Ok(db)
  {
    UpgradeRuns(db);
    UpgradeGivesSchema0023(db);
    DowngradeRunsIff(Upgraded(db));
    NoSecondKeyYet(db);
    UpAndDown(db);
  }

  lemma NoSecondKeyYet(db: Db)
    requires Schema0022(db)
    ensures !SecondKey(Keys(Upgraded(db)).rows)
  {
    var after := Keys(Upgraded(db)).rows;
    forall i, j | i in after && j in after && SamePair(after[i], after[j]) ensures i == j {
      OnePrimaryPerPair(db, j);
    }
  }

  lemma UpAndDown(db: Db)
    requires Consistent(db) && HasKeys(db) && ADDED !! Keys(db).columns.Keys
    requires UqOrgProvider in db.indexes && db.indexes[UqOrgProvider] == PAIR_INDEX
    requires UqOrgProviderLabel !in db.indexes && UqOnePrimary !in db.indexes && IxFailoverTarget !in db.indexes
    ensures Downgraded(Upgraded(db)) == db
  {
    KeysUpAndDown(db.enums, Keys(db));
    IndexesUpAndDown(db.indexes);
    assert Downgraded(Upgraded(db)).tables == db.tables;
  }

  lemma KeysUpAndDown(enums: map<nat, seq<string>>, t: Table)
    requires TableOk(enums, t) && ADDED !! t.columns.Keys
    ensures DowngradedKeys(UpgradedKeys(t)) == t
  {
    var back := DowngradedKeys(UpgradedKeys(t));
    forall i | i in t.rows ensures back.rows[i] == t.rows[i] {
      assert RowOk(enums, t.columns, t.rows[i]);
      DefaultsRemoved(t.rows[i]);
    }
    ColumnsUpAndDown(t.columns);
  }

  lemma DefaultsRemoved(r: Row)
    requires ADDED !! r.Keys
    ensures Defaulted(r) - ADDED == r
  {
  }

  lemma ColumnsUpAndDown(columns: map<Column, ColumnDef>)
    requires ADDED !! columns.Keys
    ensures NewColumns(columns) - ADDED == columns
  {
  }

  lemma IndexesUpAndDown(indexes: map<IndexName, Index>)
    requires UqOrgProvider in indexes && indexes[UqOrgProvider] == PAIR_INDEX
    requires UqOrgProviderLabel !in indexes && UqOnePrimary !in indexes && IxFailoverTarget !in indexes
    ensures OldIndexes((indexes - {UqOrgProvider})[UqOrgProviderLabel := LABEL_INDEX][UqOnePrimary := PRIMARY_INDEX]
                       [IxFailoverTarget := TARGET_INDEX]) == indexes
  {
  }
}
