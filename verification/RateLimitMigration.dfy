/** Migration 0034 (the enum rebuild that adds the 'user' scope) on the schema that 0026 and 0033
    create (backend/alembic/versions). */
module RateLimitMigration {
  import opened Options
  import opened Catalog
  import opened CatalogInvariant

  const ORG_DEFAULT := "org_default_per_user"
  const TEAM := "team"
  const USER := "user"
  const OLD_VALUES := [ORG_DEFAULT, TEAM]
  const NEW_VALUES := [ORG_DEFAULT, TEAM, USER]

  const TWO_WAY := Or(And(Equals(ScopeType, ORG_DEFAULT), IsNull(ScopeTeamId)),
                      And(Equals(ScopeType, TEAM), IsNotNull(ScopeTeamId)))
  const THREE_WAY := Or(Or(And(And(Equals(ScopeType, ORG_DEFAULT), IsNull(ScopeTeamId)), IsNull(ScopeUserId)),
                           And(And(Equals(ScopeType, TEAM), IsNotNull(ScopeTeamId)), IsNull(ScopeUserId))),
                        And(And(Equals(ScopeType, USER), IsNull(ScopeTeamId)), IsNotNull(ScopeUserId)))
  const AT_LEAST_ONE_LIMIT := Or(IsNotNull(RequestsPerMin), IsNotNull(TokensPerMin))

  const CREATE_ORG_DEFAULT := CreateIndex(UqOrgDefault, RateLimitRules, [OrgId], true, Equals(ScopeType, ORG_DEFAULT))
  const CREATE_TEAM_SCOPED := CreateIndex(UqTeamScoped, RateLimitRules, [ScopeTeamId], true, IsNotNull(ScopeTeamId))

  const RULE_COLUMNS: map<Column, ColumnSpec> := map[
    Id := OPAQUE, OrgId := OPAQUE, ScopeType := ColumnSpec(NamedRef(ScopeTypeName), false, None),
    ScopeTeamId := OPAQUE_OR_NULL, RequestsPerMin := OPAQUE_OR_NULL, TokensPerMin := OPAQUE_OR_NULL,
    OnLimit := ColumnSpec(NamedRef(OnLimitName), false, Some(Text("reject"))),
    MaxQueueWait := ColumnSpec(BasicRef(OpaqueKind), false, Some(Opaque(30))), CreatedAt := NOW, UpdatedAt := NOW]

  const EVENT_COLUMNS: map<Column, ColumnSpec> := map[
    Id := OPAQUE, OrgId := OPAQUE, RuleId := OPAQUE_OR_NULL,
    ScopeType := ColumnSpec(NamedRef(ScopeTypeName), false, None),
    ScopeTeamId := OPAQUE_OR_NULL, UserId := OPAQUE_OR_NULL,
    Outcome := ColumnSpec(NamedRef(RejectionOutcomeName), false, None), OccurredAt := NOW]

  const UPGRADE_0026 := [
    CreateEnum(ScopeTypeName, OLD_VALUES, true),
    CreateEnum(OnLimitName, ["reject", "queue_retry"], true),
    CreateEnum(RejectionOutcomeName, ["reject", "queue_timeout"], true),
    CreateTable(RateLimitRules, RULE_COLUMNS),
    CreateCheck(RateLimitRules, CkScopeTeam, TWO_WAY),
    CREATE_ORG_DEFAULT,
    CREATE_TEAM_SCOPED,
    CreateTable(RejectionEvents, EVENT_COLUMNS),
    CreateIndex(IxEventsByOrg, RejectionEvents, [OrgId, OccurredAt], false, Always),
    CreateIndex(IxEventsByRule, RejectionEvents, [RuleId, OccurredAt], false, Always)]

  const UPGRADE_0033 := [CreateCheck(RateLimitRules, CkAtLeastOneLimit, AT_LEAST_ONE_LIMIT)]

  /** Both directions of 0034 rebuild the type in the same way, `temp` being the old type's name
      while both exist, and then recreate the two indexes. */
  function Rebuild(temp: TypeName, labels: seq<string>): seq<Statement> {
    [RenameType(ScopeTypeName, temp),
     CreateEnum(ScopeTypeName, labels, false),
     CastColumn(RateLimitRules, ScopeType, ScopeTypeName),
     CastColumn(RejectionEvents, ScopeType, ScopeTypeName),
     DropType(temp),
     CREATE_ORG_DEFAULT,
     CREATE_TEAM_SCOPED]
  }

  const RELEASE_OLD_LITERALS :=
    [DropIndex(UqOrgDefault), DropIndex(UqTeamScoped), DropCheck(RateLimitRules, CkScopeTeam)]

  const ADD_USER_SCOPE :=
    [AddColumn(RateLimitRules, ScopeUserId, BasicRef(OpaqueKind), true, None),
     CreateCheck(RateLimitRules, CkScopeId, THREE_WAY),
     CreateIndex(UqUserScoped, RateLimitRules, [ScopeUserId], true, IsNotNull(ScopeUserId))]

  const UPGRADE_0034 := RELEASE_OLD_LITERALS + Rebuild(ScopeTypeOldName, NEW_VALUES) + ADD_USER_SCOPE

  const REMOVE_USER_SCOPE :=
    [DropIndex(UqUserScoped), DropCheck(RateLimitRules, CkScopeId), DropColumn(RateLimitRules, ScopeUserId),
     DropIndex(UqOrgDefault), DropIndex(UqTeamScoped)]

  const RESTORE_CHECK := [CreateCheck(RateLimitRules, CkScopeTeam, TWO_WAY)]

  const DOWNGRADE_0034 := REMOVE_USER_SCOPE + Rebuild(ScopeTypeNewName, OLD_VALUES) + RESTORE_CHECK

  // ---------------------------------------------------------------- schemas

  function TwoWay(o: nat): Expr {
    EOr(EAnd(EEquals(ScopeType, Enum(o), ORG_DEFAULT), EIsNull(ScopeTeamId)),
        EAnd(EEquals(ScopeType, Enum(o), TEAM), EIsNotNull(ScopeTeamId)))
  }

  function ThreeWay(o: nat): Expr {
    EOr(EOr(EAnd(EAnd(EEquals(ScopeType, Enum(o), ORG_DEFAULT), EIsNull(ScopeTeamId)), EIsNull(ScopeUserId)),
            EAnd(EAnd(EEquals(ScopeType, Enum(o), TEAM), EIsNotNull(ScopeTeamId)), EIsNull(ScopeUserId))),
        EAnd(EAnd(EEquals(ScopeType, Enum(o), USER), EIsNull(ScopeTeamId)), EIsNotNull(ScopeUserId)))
  }

  const LIMIT_EXPR := EOr(EIsNotNull(RequestsPerMin), EIsNotNull(TokensPerMin))

  function OrgDefaultIndex(o: nat): Index {
    Index(RateLimitRules, [OrgId], true, false, EEquals(ScopeType, Enum(o), ORG_DEFAULT))
  }

  const TEAM_INDEX := Index(RateLimitRules, [ScopeTeamId], true, false, EIsNotNull(ScopeTeamId))
  const USER_INDEX := Index(RateLimitRules, [ScopeUserId], true, false, EIsNotNull(ScopeUserId))

  function Scope(db: Db): nat {
    if ScopeTypeName in db.types then db.types[ScopeTypeName] else 0
  }

  /** The scope type has these labels and is used by exactly the two `scope_type` columns. */
  ghost predicate ScopeTypeOk(db: Db, labels: seq<string>) {
    && ScopeTypeName in db.types && Scope(db) in db.enums && db.enums[Scope(db)] == labels
    && ScopeTypeOldName !in db.types && ScopeTypeNewName !in db.types
    && RateLimitRules in db.tables && RejectionEvents in db.tables
    && (forall t, c :: t in db.tables && c in db.tables[t].columns ==>
          (db.tables[t].columns[c].ctype == Enum(Scope(db)) <==>
             c == ScopeType && (t == RateLimitRules || t == RejectionEvents)))
    && (forall t :: t == RateLimitRules || t == RejectionEvents ==>
          ScopeType in db.tables[t].columns && db.tables[t].columns[ScopeType] == ColumnDef(Enum(Scope(db)), false, None))
    && (forall c :: c == OrgId || c == ScopeTeamId ==> c in db.tables[RateLimitRules].columns)
  }

  /** The only stored literals of the scope type are in the named CHECK and index. */
  ghost predicate LiteralsOnlyIn(db: Db, check: CheckName)
    requires RateLimitRules in db.tables
  {
    && (forall t, k :: t in db.tables && k in db.tables[t].checks && HasLiteralOf(db.tables[t].checks[k], Scope(db)) ==>
          t == RateLimitRules && k == check)
    && (forall k :: k in db.indexes && HasLiteralOf(db.indexes[k].filter, Scope(db)) ==> k == UqOrgDefault)
  }

  ghost predicate IndexesOk(db: Db) {
    && UqOrgDefault in db.indexes && db.indexes[UqOrgDefault] == OrgDefaultIndex(Scope(db))
    && UqTeamScoped in db.indexes && db.indexes[UqTeamScoped] == TEAM_INDEX
  }

  /** Any consistent database with the schema that 0026 and 0033 leave: other tables, types,
      indexes and CHECKs are arbitrary, and so are the rows. */
  ghost predicate Schema0033(db: Db) {
    && Consistent(db)
    && ScopeTypeOk(db, OLD_VALUES) && IndexesOk(db) && LiteralsOnlyIn(db, CkScopeTeam)
    && var rules := db.tables[RateLimitRules];
    && ScopeUserId !in rules.columns && UqUserScoped !in db.indexes && CkScopeId !in rules.checks
    && CkScopeTeam in rules.checks && rules.checks[CkScopeTeam] == TwoWay(Scope(db))
    && CkAtLeastOneLimit in rules.checks && rules.checks[CkAtLeastOneLimit] == LIMIT_EXPR
  }

  /** The user column with its index and CHECK, and nothing else over that column. */
  ghost predicate UserScopeOk(db: Db)
    requires RateLimitRules in db.tables
  {
    var rules := db.tables[RateLimitRules];
    && ScopeUserId in rules.columns && rules.columns[ScopeUserId] == OPTIONAL
    && UqUserScoped in db.indexes && db.indexes[UqUserScoped] == USER_INDEX
    && CkScopeId in rules.checks && rules.checks[CkScopeId] == ThreeWay(Scope(db))
    && (forall k :: k in db.indexes && k != UqUserScoped ==> !Uses(db.indexes[k], RateLimitRules, ScopeUserId))
    && (forall k :: k in rules.checks && k != CkScopeId ==> !Mentions(rules.checks[k], ScopeUserId))
  }

  ghost predicate OtherChecksOk(db: Db)
    requires RateLimitRules in db.tables
  {
    var rules := db.tables[RateLimitRules];
    && CkScopeTeam !in rules.checks
    && CkAtLeastOneLimit in rules.checks && rules.checks[CkAtLeastOneLimit] == LIMIT_EXPR
  }

  /** The same after 0034. */
  ghost predicate Schema0034(db: Db) {
    && Consistent(db)
    && ScopeTypeOk(db, NEW_VALUES) && IndexesOk(db) && LiteralsOnlyIn(db, CkScopeId)
    && UserScopeOk(db) && OtherChecksOk(db)
  }

  // ---------------------------------------------------------------- the rebuild of the type

  function Retyped(t: Table, o: nat): Table {
    if ScopeType in t.columns then t.(columns := t.columns[ScopeType := t.columns[ScopeType].(ctype := Enum(o))]) else t
  }

  /** Both tables have their scope_type column cast to type `o`. */
  function RetypedTables(db: Db, o: nat): map<TableName, Table>
    requires RateLimitRules in db.tables && RejectionEvents in db.tables
  {
    db.tables[RateLimitRules := Retyped(db.tables[RateLimitRules], o)]
             [RejectionEvents := Retyped(db.tables[RejectionEvents], o)]
  }

  function Rebuilt(db: Db, labels: seq<string>): Db
    requires RateLimitRules in db.tables && RejectionEvents in db.tables
  {
    var n := db.nextOid;
    Db(db.types[ScopeTypeName := n],
       (db.enums - {Scope(db)})[n := labels],
       RetypedTables(db, n),
       db.indexes[UqOrgDefault := OrgDefaultIndex(n)][UqTeamScoped := TEAM_INDEX],
       n + 1)
  }

  predicate LabelIn(r: Row, labels: seq<string>) {
    Get(r, ScopeType).Text? && Get(r, ScopeType).text in labels
  }

  /** Every row of the table has one of these scopes. */
  predicate ScopesIn(db: Db, t: TableName, labels: seq<string>) {
    t in db.tables ==> forall i :: i in db.tables[t].rows ==> LabelIn(db.tables[t].rows[i], labels)
  }

  /** What the rebuild starts from: nothing compares a scope_type with a literal any more. */
  ghost predicate Rebuildable(db: Db, temp: TypeName, was: seq<string>, labels: seq<string>) {
    && Consistent(db) && ScopeTypeOk(db, was)
    && (temp == ScopeTypeOldName || temp == ScopeTypeNewName)
    && (forall t, k :: t in db.tables && k in db.tables[t].checks ==> !HasLiteralOf(db.tables[t].checks[k], Scope(db)))
    && (forall k :: k in db.indexes ==> !HasLiteralOf(db.indexes[k].filter, Scope(db)))
    && UqOrgDefault !in db.indexes && UqTeamScoped !in db.indexes
    && Unique(OrgDefaultIndex(Scope(db)), db.tables[RateLimitRules].rows)
    && Unique(TEAM_INDEX, db.tables[RateLimitRules].rows)
    && ORG_DEFAULT in labels
  }

  lemma {:induction false} NothingCompared(columns: map<Column, ColumnDef>, e: Expr, o: nat, t: ColumnType)
    requires ExprOk(columns, e) && !HasLiteralOf(e, o)
    requires ScopeType in columns && columns[ScopeType].ctype == Enum(o)
    ensures !ComparesOther(e, ScopeType, t)
  {
    match e
    case EAnd(a, b) =>
      NothingCompared(columns, a, o, t);
      NothingCompared(columns, b, o, t);
    case EOr(a, b) =>
      NothingCompared(columns, a, o, t);
      NothingCompared(columns, b, o, t);
    case _ =>
  }

  /** Rows of a consistent table have a non-null scope among the type's labels. */
  lemma ScopesAreLabels(db: Db, t: TableName, labels: seq<string>)
    requires Consistent(db) && ScopeTypeOk(db, labels) && (t == RateLimitRules || t == RejectionEvents)
    ensures ScopesIn(db, t, labels)
  {
    forall i | i in db.tables[t].rows ensures LabelIn(db.tables[t].rows[i], labels) {
      assert RowOk(db.enums, db.tables[t].columns, db.tables[t].rows[i]);
    }
  }

  /** The table can have its scope cast away from type `o`, and the target type has these labels. */
  ghost predicate Castable(db: Db, t: TableName, o: nat, labels: seq<string>) {
    && t in db.tables && TableOk(db.enums, db.tables[t])
    && ScopeType in db.tables[t].columns && db.tables[t].columns[ScopeType] == ColumnDef(Enum(o), false, None)
    && (forall k :: k in db.tables[t].checks ==> !HasLiteralOf(db.tables[t].checks[k], o))
    && (forall k :: k in db.indexes && db.indexes[k].table == t ==>
          ExprOk(db.tables[t].columns, db.indexes[k].filter) && !HasLiteralOf(db.indexes[k].filter, o))
    && ScopeTypeName in db.types && db.types[ScopeTypeName] in db.enums
    && db.enums[db.types[ScopeTypeName]] == labels
  }

  lemma CastScope(db: Db, t: TableName, o: nat, labels: seq<string>)
    requires Castable(db, t, o, labels)
    ensures Cast(db, t, ScopeType, ScopeTypeName) ==
              if ScopesIn(db, t, labels) then Ok(SetTable(db, t, Retyped(db.tables[t], db.types[ScopeTypeName])))
              else Err(InvalidLabel)
  {
    var table, ty := db.tables[t], Enum(db.types[ScopeTypeName]);
    forall k | k in table.checks ensures !ComparesOther(table.checks[k], ScopeType, ty) {
      NothingCompared(table.columns, table.checks[k], o, ty);
    }
    forall k | k in db.indexes && db.indexes[k].table == t ensures !ComparesOther(db.indexes[k].filter, ScopeType, ty) {
      NothingCompared(table.columns, db.indexes[k].filter, o, ty);
    }
    forall i | i in table.rows ensures Get(table.rows[i], ScopeType).Text? {
      assert RowOk(db.enums, table.columns, table.rows[i]);
    }
  }

  /** The database once both types exist. */
  function Renamed(db: Db, temp: TypeName, labels: seq<string>): Db {
    db.(types := (db.types - {ScopeTypeName})[temp := Scope(db)][ScopeTypeName := db.nextOid],
        enums := db.enums[db.nextOid := labels],
        nextOid := db.nextOid + 1)
  }

  function RulesCast(db: Db, temp: TypeName, labels: seq<string>): Db
    requires RateLimitRules in db.tables
  {
    SetTable(Renamed(db, temp, labels), RateLimitRules, Retyped(db.tables[RateLimitRules], db.nextOid))
  }

  function BothCast(db: Db, temp: TypeName, labels: seq<string>): Db
    requires RateLimitRules in db.tables && RejectionEvents in db.tables
  {
    Renamed(db, temp, labels).(tables := RetypedTables(db, db.nextOid))
  }

  lemma RenamedIsCastable(db: Db, temp: TypeName, was: seq<string>, labels: seq<string>, t: TableName)
    requires Rebuildable(db, temp, was, labels) && (t == RateLimitRules || t == RejectionEvents)
    ensures Castable(Renamed(db, temp, labels), t, Scope(db), labels)
  {
    CreateEnumKeepsTable(db, labels, t);
    forall k | k in db.indexes && db.indexes[k].table == t ensures ExprOk(db.tables[t].columns, db.indexes[k].filter) {
      assert IndexOk(db.tables, db.indexes[k]);
    }
  }

  lemma OtherTableStaysCastable(d: Db, t: TableName, table: Table, u: TableName, o: nat, labels: seq<string>)
    requires t != u && Castable(d, u, o, labels)
    ensures Castable(SetTable(d, t, table), u, o, labels)
  {
  }

  lemma CastRules(db: Db, temp: TypeName, labels: seq<string>)
    requires Castable(Renamed(db, temp, labels), RateLimitRules, Scope(db), labels)
    ensures Perform(Renamed(db, temp, labels), CastColumn(RateLimitRules, ScopeType, ScopeTypeName)) ==
              if ScopesIn(db, RateLimitRules, labels) then Ok(RulesCast(db, temp, labels)) else Err(InvalidLabel)
  {
    CastScope(Renamed(db, temp, labels), RateLimitRules, Scope(db), labels);
  }

  lemma CastEvents(db: Db, temp: TypeName, labels: seq<string>)
    requires RateLimitRules in db.tables
    requires Castable(Renamed(db, temp, labels), RejectionEvents, Scope(db), labels)
    ensures Perform(RulesCast(db, temp, labels), CastColumn(RejectionEvents, ScopeType, ScopeTypeName)) ==
              if ScopesIn(db, RejectionEvents, labels) then Ok(BothCast(db, temp, labels)) else Err(InvalidLabel)
  {
    OtherTableStaysCastable(Renamed(db, temp, labels), RateLimitRules, Retyped(db.tables[RateLimitRules], db.nextOid),
                            RejectionEvents, Scope(db), labels);
    CastScope(RulesCast(db, temp, labels), RejectionEvents, Scope(db), labels);
  }

  lemma CreateEnumKeepsTable(db: Db, labels: seq<string>, t: TableName)
    requires Consistent(db) && t in db.tables
    ensures TableOk(db.enums[db.nextOid := labels], db.tables[t])
  {
    var enums := db.enums[db.nextOid := labels];
    assert TableOk(db.enums, db.tables[t]);
    forall i | i in db.tables[t].rows ensures RowOk(enums, db.tables[t].columns, db.tables[t].rows[i]) {
      assert RowOk(db.enums, db.tables[t].columns, db.tables[t].rows[i]);
    }
  }

  /** Only the two scope_type columns have the scope type, and no stored literal has it. */
  ghost predicate OnlyScopeColumns(db: Db) {
    && (forall t, c :: t in db.tables && c in db.tables[t].columns && db.tables[t].columns[c].ctype == Enum(Scope(db)) ==>
          c == ScopeType && (t == RateLimitRules || t == RejectionEvents))
    && (forall t, k :: t in db.tables && k in db.tables[t].checks ==> !HasLiteralOf(db.tables[t].checks[k], Scope(db)))
    && (forall k :: k in db.indexes ==> !HasLiteralOf(db.indexes[k].filter, Scope(db)))
  }

  lemma OldTypeUnused(db: Db, temp: TypeName, labels: seq<string>)
    requires RateLimitRules in db.tables && RejectionEvents in db.tables
    requires OnlyScopeColumns(db) && Scope(db) != db.nextOid
    ensures !TypeUsed(BothCast(db, temp, labels), Scope(db))
  {
    var d := BothCast(db, temp, labels);
    forall t, c | t in d.tables && c in d.tables[t].columns ensures d.tables[t].columns[c].ctype != Enum(Scope(db)) {
      assert t in db.tables && c in db.tables[t].columns;
    }
    forall t, k | t in d.tables && k in d.tables[t].checks ensures !HasLiteralOf(d.tables[t].checks[k], Scope(db)) {
      assert k in db.tables[t].checks;
    }
  }

  lemma SameUnique(rows: map<RowId, Row>, a: Index, b: Index)
    requires Unique(a, rows) && a.columns == b.columns && a.unique == b.unique
    requires forall r: Row :: Eval(a.filter, r) == Eval(b.filter, r)
    ensures Unique(b, rows)
  {
    forall i, j | b.unique && i in rows && j in rows && i != j ensures !Clash(b, rows[i], rows[j]) {
      assert !Clash(a, rows[i], rows[j]);
    }
  }

  /** Creating the two indexes over the rebuilt type. */
  lemma RecreateIndexes(d: Db, o: nat, n: nat, labels: seq<string>)
    requires RateLimitRules in d.tables && n in d.enums && d.enums[n] == labels && ORG_DEFAULT in labels
    requires var columns := d.tables[RateLimitRules].columns;
             && ScopeType in columns && columns[ScopeType].ctype == Enum(n) && OrgId in columns && ScopeTeamId in columns
    requires UqOrgDefault !in d.indexes && UqTeamScoped !in d.indexes
    requires Unique(OrgDefaultIndex(o), d.tables[RateLimitRules].rows) && Unique(TEAM_INDEX, d.tables[RateLimitRules].rows)
    ensures var e := d.(indexes := d.indexes[UqOrgDefault := OrgDefaultIndex(n)]);
            && Perform(d, CREATE_ORG_DEFAULT) == Ok(e)
            && Perform(e, CREATE_TEAM_SCOPED) == Ok(e.(indexes := e.indexes[UqTeamScoped := TEAM_INDEX]))
  {
    SameUnique(d.tables[RateLimitRules].rows, OrgDefaultIndex(o), OrgDefaultIndex(n));
    assert forall c <- [OrgId] :: c == OrgId;
    assert forall c <- [ScopeTeamId] :: c == ScopeTeamId;
  }

  lemma RebuildStarts(db: Db, temp: TypeName, labels: seq<string>)
    requires ScopeTypeName in db.types && temp !in db.types && temp != ScopeTypeName
    ensures Run(db, Rebuild(temp, labels), 0) == Run(Renamed(db, temp, labels), Rebuild(temp, labels), 2)
  {
    var script := Rebuild(temp, labels);
    var d1 := db.(types := (db.types - {ScopeTypeName})[temp := Scope(db)]);
    assert Perform(db, script[0]) == Ok(d1);
    assert Perform(d1, script[1]) == Ok(Renamed(db, temp, labels));
  }

  lemma RenamedTypes(types: map<TypeName, nat>, temp: TypeName, o: nat, n: nat)
    requires temp !in types && temp != ScopeTypeName
    ensures (types - {ScopeTypeName})[temp := o][ScopeTypeName := n] - {temp} == types[ScopeTypeName := n]
  {
  }

  lemma ReplacedEnum(enums: map<nat, seq<string>>, o: nat, n: nat, labels: seq<string>)
    requires o != n
    ensures enums[n := labels] - {o} == (enums - {o})[n := labels]
  {
  }

  lemma OldTypeDropped(db: Db, temp: TypeName, labels: seq<string>)
    requires RateLimitRules in db.tables && RejectionEvents in db.tables
    requires temp !in db.types && temp != ScopeTypeName && Scope(db) != db.nextOid
    requires !TypeUsed(BothCast(db, temp, labels), Scope(db))
    ensures Perform(BothCast(db, temp, labels), DropType(temp)) == Ok(Rebuilt(db, labels).(indexes := db.indexes))
  {
    RenamedTypes(db.types, temp, Scope(db), db.nextOid);
    ReplacedEnum(db.enums, Scope(db), db.nextOid, labels);
    DropUnused(BothCast(db, temp, labels), temp);
  }

  lemma DropUnused(d: Db, temp: TypeName)
    requires temp in d.types && !TypeUsed(d, d.types[temp])
    ensures Perform(d, DropType(temp)) == Ok(d.(types := d.types - {temp}, enums := d.enums - {d.types[temp]}))
  {
  }

  lemma OldTypeGoes(db: Db, temp: TypeName, labels: seq<string>)
    requires RateLimitRules in db.tables && RejectionEvents in db.tables
    requires temp !in db.types && temp != ScopeTypeName && Scope(db) != db.nextOid && OnlyScopeColumns(db)
    ensures Run(BothCast(db, temp, labels), Rebuild(temp, labels), 4) ==
              Run(Rebuilt(db, labels).(indexes := db.indexes), Rebuild(temp, labels), 5)
  {
    OldTypeUnused(db, temp, labels);
    OldTypeDropped(db, temp, labels);
    RunStep(BothCast(db, temp, labels), Rebuild(temp, labels), 4, Ok(Rebuilt(db, labels).(indexes := db.indexes)));
  }

  lemma IndexesComeBack(d: Db, temp: TypeName, o: nat, n: nat, labels: seq<string>)
    requires RateLimitRules in d.tables && n in d.enums && d.enums[n] == labels && ORG_DEFAULT in labels
    requires var columns := d.tables[RateLimitRules].columns;
             && ScopeType in columns && columns[ScopeType].ctype == Enum(n) && OrgId in columns && ScopeTeamId in columns
    requires UqOrgDefault !in d.indexes && UqTeamScoped !in d.indexes
    requires Unique(OrgDefaultIndex(o), d.tables[RateLimitRules].rows) && Unique(TEAM_INDEX, d.tables[RateLimitRules].rows)
    ensures Run(d, Rebuild(temp, labels), 5) ==
              Ok(d.(indexes := d.indexes[UqOrgDefault := OrgDefaultIndex(n)][UqTeamScoped := TEAM_INDEX]))
  {
    RecreateIndexes(d, o, n, labels);
    var e := d.(indexes := d.indexes[UqOrgDefault := OrgDefaultIndex(n)]);
    RunStep(d, Rebuild(temp, labels), 5, Ok(e));
    RunStep(e, Rebuild(temp, labels), 6, Ok(e.(indexes := e.indexes[UqTeamScoped := TEAM_INDEX])));
  }

  lemma RebuildEnds(db: Db, temp: TypeName, was: seq<string>, labels: seq<string>)
    requires Rebuildable(db, temp, was, labels)
    ensures Run(BothCast(db, temp, labels), Rebuild(temp, labels), 4) == Ok(Rebuilt(db, labels))
  {
    OldTypeGoes(db, temp, labels);
    IndexesComeBack(Rebuilt(db, labels).(indexes := db.indexes), temp, Scope(db), db.nextOid, labels);
  }

  lemma RebuildCasts(db: Db, temp: TypeName, labels: seq<string>)
    requires Castable(Renamed(db, temp, labels), RateLimitRules, Scope(db), labels)
    requires Castable(Renamed(db, temp, labels), RejectionEvents, Scope(db), labels)
    ensures Run(Renamed(db, temp, labels), Rebuild(temp, labels), 2) ==
              if ScopesIn(db, RateLimitRules, labels) && ScopesIn(db, RejectionEvents, labels)
              then Run(BothCast(db, temp, labels), Rebuild(temp, labels), 4) else Err(InvalidLabel)
  {
    var script := Rebuild(temp, labels);
    CastRules(db, temp, labels);
    CastEvents(db, temp, labels);
    RunStep(Renamed(db, temp, labels), script, 2, Perform(Renamed(db, temp, labels), script[2]));
    RunStep(RulesCast(db, temp, labels), script, 3, Perform(RulesCast(db, temp, labels), script[3]));
  }

  /** The rebuild goes through exactly when both tables' scopes are among the new labels. */
  lemma RebuildRuns(db: Db, temp: TypeName, was: seq<string>, labels: seq<string>)
    requires Rebuildable(db, temp, was, labels)
    ensures Run(db, Rebuild(temp, labels)) ==
              if ScopesIn(db, RateLimitRules, labels) && ScopesIn(db, RejectionEvents, labels)
              then Ok(Rebuilt(db, labels)) else Err(InvalidLabel)
  {
    RebuildStarts(db, temp, labels);
    RenamedIsCastable(db, temp, was, labels, RateLimitRules);
    RenamedIsCastable(db, temp, was, labels, RejectionEvents);
    RebuildCasts(db, temp, labels);
    RebuildEnds(db, temp, was, labels);
  }

  // ---------------------------------------------------------------- upgrade

  function Released(db: Db, check: CheckName): Db
    requires RateLimitRules in db.tables
  {
    var rules := db.tables[RateLimitRules];
    db.(tables := db.tables[RateLimitRules := rules.(checks := rules.checks - {check})],
        indexes := db.indexes - {UqOrgDefault} - {UqTeamScoped})
  }

  lemma ReleaseRuns(db: Db)
    requires RateLimitRules in db.tables && CkScopeTeam in db.tables[RateLimitRules].checks && IndexesOk(db)
    ensures Run(db, RELEASE_OLD_LITERALS) == Ok(Released(db, CkScopeTeam))
  {
    var d1 := db.(indexes := db.indexes - {UqOrgDefault});
    var d2 := d1.(indexes := d1.indexes - {UqTeamScoped});
    RunStep(db, RELEASE_OLD_LITERALS, 0, Ok(d1));
    RunStep(d1, RELEASE_OLD_LITERALS, 1, Ok(d2));
    RunStep(d2, RELEASE_OLD_LITERALS, 2, Ok(Released(db, CkScopeTeam)));
  }

  lemma ReleasedIsConsistent(db: Db)
    requires Consistent(db)
    requires RateLimitRules in db.tables && CkScopeTeam in db.tables[RateLimitRules].checks && IndexesOk(db)
    ensures Consistent(Released(db, CkScopeTeam))
  {
    ReleaseRuns(db);
    RunKeepsConsistent(db, RELEASE_OLD_LITERALS, 0);
  }

  lemma ReleasedScope(db: Db, labels: seq<string>)
    requires ScopeTypeOk(db, labels)
    ensures ScopeTypeOk(Released(db, CkScopeTeam), labels)
  {
  }

  lemma ReleasedIsRebuildable(db: Db)
    requires Schema0033(db)
    ensures Rebuildable(Released(db, CkScopeTeam), ScopeTypeOldName, OLD_VALUES, NEW_VALUES)
  {
    ReleasedIsConsistent(db);
    ReleasedScope(db, OLD_VALUES);
    ReleasedLiterals(db);
    ReleasedUniques(db);
  }

  lemma ReleasedLiterals(db: Db)
    requires RateLimitRules in db.tables && LiteralsOnlyIn(db, CkScopeTeam)
    ensures var d := Released(db, CkScopeTeam);
            && (forall t, k :: t in d.tables && k in d.tables[t].checks ==> !HasLiteralOf(d.tables[t].checks[k], Scope(d)))
            && (forall k :: k in d.indexes ==> !HasLiteralOf(d.indexes[k].filter, Scope(d)))
  {
    var d := Released(db, CkScopeTeam);
    forall t, k | t in d.tables && k in d.tables[t].checks ensures !HasLiteralOf(d.tables[t].checks[k], Scope(d)) {
      assert t in db.tables && k in db.tables[t].checks;
    }
  }

  lemma ReleasedUniques(db: Db)
    requires Consistent(db) && IndexesOk(db) && RateLimitRules in db.tables
    ensures var d := Released(db, CkScopeTeam); var rows := d.tables[RateLimitRules].rows;
            && UqOrgDefault !in d.indexes && UqTeamScoped !in d.indexes
            && Unique(OrgDefaultIndex(Scope(d)), rows) && Unique(TEAM_INDEX, rows)
  {
    assert IndexOk(db.tables, db.indexes[UqOrgDefault]) && IndexOk(db.tables, db.indexes[UqTeamScoped]);
  }

  lemma ReleasedScopes(db: Db)
    requires Schema0033(db)
    ensures var d := Released(db, CkScopeTeam);
            ScopesIn(d, RateLimitRules, NEW_VALUES) && ScopesIn(d, RejectionEvents, NEW_VALUES)
  {
    ScopesAreLabels(db, RateLimitRules, OLD_VALUES);
    ScopesAreLabels(db, RejectionEvents, OLD_VALUES);
    assert forall x :: x in OLD_VALUES ==> x in NEW_VALUES;
  }

  function WithUserScope(t: Table, n: nat): Table {
    Table(t.columns[ScopeUserId := OPTIONAL], WithColumn(t.rows, ScopeUserId, Null), t.checks[CkScopeId := ThreeWay(n)])
  }

  lemma LabelsDiffer()
    ensures ORG_DEFAULT != TEAM && TEAM != USER && USER != ORG_DEFAULT
  {
    assert |ORG_DEFAULT| != |TEAM| && |USER| != |ORG_DEFAULT| && TEAM[0] != USER[0];
  }

  /** A row with an old scope that obeys the two-way CHECK obeys the three-way one with no user. */
  lemma TwoWayGivesThreeWay(r: Row, o: nat, n: nat)
    requires LabelIn(r, OLD_VALUES) && Eval(TwoWay(o), r) != No
    ensures Eval(ThreeWay(n), r[ScopeUserId := Null]) != No
  {
    LabelsDiffer();
    var q := r[ScopeUserId := Null];
    assert Get(q, ScopeType) == Get(r, ScopeType) && Get(q, ScopeTeamId) == Get(r, ScopeTeamId);
    if Get(r, ScopeType).text == ORG_DEFAULT {
      assert Eval(TwoWay(o).right.left, r) == No && Eval(TwoWay(o).right, r) == No;
      assert Eval(TwoWay(o).left.right, r) == Yes;
      assert Eval(ThreeWay(n).left.left.left.left, q) == Yes;
      assert Eval(ThreeWay(n).left.left.left, q) == Yes;
      assert Eval(ThreeWay(n).left.left, q) == Yes;
      assert Eval(ThreeWay(n).left, q) == Yes;
    } else {
      assert Get(r, ScopeType).text == TEAM;
      assert Eval(TwoWay(o).left.left, r) == No && Eval(TwoWay(o).left, r) == No;
      assert Eval(TwoWay(o).right.right, r) == Yes;
      assert Eval(ThreeWay(n).left.right.left.left, q) == Yes;
      assert Eval(ThreeWay(n).left.right.left, q) == Yes;
      assert Eval(ThreeWay(n).left.right, q) == Yes;
      assert Eval(ThreeWay(n).left, q) == Yes;
    }
  }

  lemma UserColumnRuns(d: Db)
    requires RateLimitRules in d.tables && ScopeUserId !in d.tables[RateLimitRules].columns
    ensures var t := d.tables[RateLimitRules];
            Perform(d, ADD_USER_SCOPE[0]) ==
              Ok(SetTable(d, RateLimitRules, WithUserScope(t, 0).(checks := t.checks)))
  {
  }

  lemma UserCheckRuns(d: Db, t: Table, n: nat, o: nat)
    requires RateLimitRules in d.tables && d.tables[RateLimitRules] == WithUserScope(t, n).(checks := t.checks)
    requires ScopeType in t.columns && t.columns[ScopeType].ctype == Enum(n) && ScopeTeamId in t.columns
    requires n in d.enums && d.enums[n] == NEW_VALUES
    requires CkScopeId !in t.checks && Satisfies(TwoWay(o), t.rows)
    requires forall i :: i in t.rows ==> LabelIn(t.rows[i], OLD_VALUES)
    ensures Perform(d, ADD_USER_SCOPE[1]) == Ok(SetTable(d, RateLimitRules, WithUserScope(t, n)))
  {
    var now := d.tables[RateLimitRules];
    forall i | i in now.rows ensures Eval(ThreeWay(n), now.rows[i]) != No {
      TwoWayGivesThreeWay(t.rows[i], o, n);
    }
    BindThreeWay(now.columns, d.enums, n);
  }

  lemma BindThreeWay(columns: map<Column, ColumnDef>, enums: map<nat, seq<string>>, n: nat)
    requires ScopeType in columns && columns[ScopeType].ctype == Enum(n) && n in enums && enums[n] == NEW_VALUES
    requires ScopeTeamId in columns && ScopeUserId in columns
    ensures Bind(columns, enums, THREE_WAY) == Ok(ThreeWay(n))
  {
    assert ORG_DEFAULT == NEW_VALUES[0] && TEAM == NEW_VALUES[1] && USER == NEW_VALUES[2];
    var e := ThreeWay(n);
    assert Bind(columns, enums, THREE_WAY.left.left.left) == Ok(e.left.left.left);
    assert Bind(columns, enums, THREE_WAY.left.left) == Ok(e.left.left);
    assert Bind(columns, enums, THREE_WAY.left.right.left) == Ok(e.left.right.left);
    assert Bind(columns, enums, THREE_WAY.left.right) == Ok(e.left.right);
    assert Bind(columns, enums, THREE_WAY.left) == Ok(e.left);
    assert Bind(columns, enums, THREE_WAY.right.left) == Ok(e.right.left);
    assert Bind(columns, enums, THREE_WAY.right) == Ok(e.right);
  }

  lemma UserIndexRuns(d: Db, t: Table, n: nat)
    requires RateLimitRules in d.tables && d.tables[RateLimitRules] == WithUserScope(t, n) && UqUserScoped !in d.indexes
    ensures Perform(d, ADD_USER_SCOPE[2]) == Ok(d.(indexes := d.indexes[UqUserScoped := USER_INDEX]))
  {
    var now := d.tables[RateLimitRules];
    assert forall c <- [ScopeUserId] :: c == ScopeUserId;
    assert forall i :: i in now.rows ==> Eval(USER_INDEX.filter, now.rows[i]) == No;
  }

  function UserScopeAdded(d: Db): Db
    requires RateLimitRules in d.tables
  {
    SetTable(d, RateLimitRules, WithUserScope(d.tables[RateLimitRules], Scope(d)))
      .(indexes := d.indexes[UqUserScoped := USER_INDEX])
  }

  /** Adding the column, the CHECK and the index, on rows that obey the two-way CHECK. */
  lemma AddUserScopeRuns(d: Db, o: nat)
    requires RateLimitRules in d.tables && Scope(d) in d.enums && d.enums[Scope(d)] == NEW_VALUES
    requires var columns := d.tables[RateLimitRules].columns;
             ScopeType in columns && columns[ScopeType].ctype == Enum(Scope(d)) && ScopeTeamId in columns
    requires ScopeUserId !in d.tables[RateLimitRules].columns && UqUserScoped !in d.indexes
    requires CkScopeId !in d.tables[RateLimitRules].checks
    requires Satisfies(TwoWay(o), d.tables[RateLimitRules].rows) && ScopesIn(d, RateLimitRules, OLD_VALUES)
    ensures Run(d, ADD_USER_SCOPE) == Ok(UserScopeAdded(d))
  {
    var t, n := d.tables[RateLimitRules], Scope(d);
    var d1 := SetTable(d, RateLimitRules, WithUserScope(t, 0).(checks := t.checks));
    var d2 := SetTable(d, RateLimitRules, WithUserScope(t, n));
    UserColumnRuns(d);
    UserCheckRuns(d1, t, n, o);
    assert SetTable(d1, RateLimitRules, WithUserScope(t, n)) == d2;
    UserIndexRuns(d2, t, n);
    RunStep(d, ADD_USER_SCOPE, 0, Ok(d1));
    RunStep(d1, ADD_USER_SCOPE, 1, Ok(d2));
    RunStep(d2, ADD_USER_SCOPE, 2, Ok(UserScopeAdded(d)));
  }

  function UpgradedRules(rules: Table, n: nat): Table {
    Table(Retyped(rules, n).columns[ScopeUserId := OPTIONAL],
          WithColumn(rules.rows, ScopeUserId, Null),
          (rules.checks - {CkScopeTeam})[CkScopeId := ThreeWay(n)])
  }

  /** The database after 0034, part by part. */
  function Upgraded(db: Db): Db
    requires RateLimitRules in db.tables && RejectionEvents in db.tables
  {
    var n := db.nextOid;
    Db(db.types[ScopeTypeName := n],
       (db.enums - {Scope(db)})[n := NEW_VALUES],
       db.tables[RateLimitRules := UpgradedRules(db.tables[RateLimitRules], n)]
                [RejectionEvents := Retyped(db.tables[RejectionEvents], n)],
       db.indexes[UqOrgDefault := OrgDefaultIndex(n)][UqTeamScoped := TEAM_INDEX][UqUserScoped := USER_INDEX],
       n + 1)
  }

  lemma UpgradedIsTheSteps(db: Db)
    requires RateLimitRules in db.tables && RejectionEvents in db.tables && ScopeTypeName in db.types
    requires ScopeType in db.tables[RateLimitRules].columns
    ensures UserScopeAdded(Rebuilt(Released(db, CkScopeTeam), NEW_VALUES)) == Upgraded(db)
  {
    var d := UserScopeAdded(Rebuilt(Released(db, CkScopeTeam), NEW_VALUES));
    assert d.tables[RateLimitRules] == Upgraded(db).tables[RateLimitRules];
    assert d.tables == Upgraded(db).tables;
    assert d.indexes == Upgraded(db).indexes;
  }

  lemma RebuiltReleasedScope(db: Db)
    requires Schema0033(db)
    ensures ScopeTypeOk(Rebuilt(Released(db, CkScopeTeam), NEW_VALUES), NEW_VALUES)
  {
    ReleasedIsRebuildable(db);
    RebuiltScope(Released(db, CkScopeTeam), ScopeTypeOldName, OLD_VALUES, NEW_VALUES);
  }

  lemma UpgradeEnds(db: Db)
    requires RateLimitRules in db.tables && RejectionEvents in db.tables && ScopeTypeName in db.types
    requires ScopeTypeOk(Rebuilt(Released(db, CkScopeTeam), NEW_VALUES), NEW_VALUES)
    requires var rules := db.tables[RateLimitRules];
             && ScopeType in rules.columns && ScopeUserId !in rules.columns && CkScopeId !in rules.checks
             && Satisfies(TwoWay(Scope(db)), rules.rows)
    requires UqUserScoped !in db.indexes && ScopesIn(db, RateLimitRules, OLD_VALUES)
    ensures Run(Rebuilt(Released(db, CkScopeTeam), NEW_VALUES), ADD_USER_SCOPE) == Ok(Upgraded(db))
  {
    AddUserScopeRuns(Rebuilt(Released(db, CkScopeTeam), NEW_VALUES), Scope(db));
    UpgradedIsTheSteps(db);
  }

  /** From every database with the schema of 0033, whatever its rows, no statement of 0034 is
      refused. */
  lemma UpgradeRuns(db: Db)
    requires Schema0033(db)
    ensures Run(db, UPGRADE_0034) == Ok(Upgraded(db))
  {
    var d0 := Released(db, CkScopeTeam);
    ReleaseRuns(db);
    ReleasedRebuildRuns(db);
    UpgradeFinishes(db);
    RunThree(db, RELEASE_OLD_LITERALS, Rebuild(ScopeTypeOldName, NEW_VALUES), ADD_USER_SCOPE, d0);
  }

  lemma ReleasedRebuildRuns(db: Db)
    requires Schema0033(db)
    ensures var d0 := Released(db, CkScopeTeam);
            Run(d0, Rebuild(ScopeTypeOldName, NEW_VALUES)) == Ok(Rebuilt(d0, NEW_VALUES))
  {
    ReleasedIsRebuildable(db);
    ReleasedScopes(db);
    RebuildRuns(Released(db, CkScopeTeam), ScopeTypeOldName, OLD_VALUES, NEW_VALUES);
  }

  lemma UpgradeFinishes(db: Db)
    requires Schema0033(db)
    ensures Run(Rebuilt(Released(db, CkScopeTeam), NEW_VALUES), ADD_USER_SCOPE) == Ok(Upgraded(db))
  {
    assert TableOk(db.enums, db.tables[RateLimitRules]);
    RebuiltReleasedScope(db);
    ScopesAreLabels(db, RateLimitRules, OLD_VALUES);
    UpgradeEnds(db);
  }

  lemma RebuiltScope(db: Db, temp: TypeName, was: seq<string>, labels: seq<string>)
    requires Rebuildable(db, temp, was, labels)
    ensures ScopeTypeOk(Rebuilt(db, labels), labels)
  {
    var d := Rebuilt(db, labels);
    forall t, c | t in d.tables && c in d.tables[t].columns
      ensures d.tables[t].columns[c].ctype == Enum(Scope(d)) <==>
                c == ScopeType && (t == RateLimitRules || t == RejectionEvents)
    {
      assert TableOk(db.enums, db.tables[t]);
      assert db.tables[t].columns[c].ctype.Enum? ==> db.tables[t].columns[c].ctype.oid in db.enums;
    }
  }

  /** In a consistent database nothing refers to a type that does not exist yet. */
  lemma NextTypeUnused(db: Db)
    requires Consistent(db)
    ensures forall t, k :: t in db.tables && k in db.tables[t].checks ==> !HasLiteralOf(db.tables[t].checks[k], db.nextOid)
    ensures forall k :: k in db.indexes ==> !HasLiteralOf(db.indexes[k].filter, db.nextOid)
  {
    forall t, k | t in db.tables && k in db.tables[t].checks ensures !HasLiteralOf(db.tables[t].checks[k], db.nextOid) {
      assert TableOk(db.enums, db.tables[t]);
      UnknownTypeHasNoLiteral(db.tables[t].columns, db.tables[t].checks[k], db.nextOid);
    }
    forall k | k in db.indexes ensures !HasLiteralOf(db.indexes[k].filter, db.nextOid) {
      assert IndexOk(db.tables, db.indexes[k]);
      assert TableOk(db.enums, db.tables[db.indexes[k].table]);
      UnknownTypeHasNoLiteral(db.tables[db.indexes[k].table].columns, db.indexes[k].filter, db.nextOid);
    }
  }

  lemma NewColumnUnused(db: Db)
    requires Consistent(db) && RateLimitRules in db.tables && ScopeUserId !in db.tables[RateLimitRules].columns
    ensures forall k :: k in db.indexes ==> !Uses(db.indexes[k], RateLimitRules, ScopeUserId)
    ensures forall k :: k in db.tables[RateLimitRules].checks ==> !Mentions(db.tables[RateLimitRules].checks[k], ScopeUserId)
  {
    forall k | k in db.indexes ensures !Uses(db.indexes[k], RateLimitRules, ScopeUserId) {
      assert IndexOk(db.tables, db.indexes[k]);
      if db.indexes[k].table == RateLimitRules {
        UnknownColumnNotMentioned(db.tables[RateLimitRules].columns, db.indexes[k].filter, ScopeUserId);
      }
    }
    assert TableOk(db.enums, db.tables[RateLimitRules]);
    forall k | k in db.tables[RateLimitRules].checks ensures !Mentions(db.tables[RateLimitRules].checks[k], ScopeUserId) {
      UnknownColumnNotMentioned(db.tables[RateLimitRules].columns, db.tables[RateLimitRules].checks[k], ScopeUserId);
    }
  }

  lemma UpgradedScope(db: Db)
    requires Schema0033(db)
    ensures ScopeTypeOk(Upgraded(db), NEW_VALUES)
  {
    RebuiltReleasedScope(db);
    AddedScope(Rebuilt(Released(db, CkScopeTeam), NEW_VALUES));
    UpgradedIsTheSteps(db);
  }

  lemma AddedScope(d: Db)
    requires ScopeTypeOk(d, NEW_VALUES)
    ensures ScopeTypeOk(UserScopeAdded(d), NEW_VALUES)
  {
  }

  lemma UpgradedLiterals(db: Db)
    requires Consistent(db) && RateLimitRules in db.tables && RejectionEvents in db.tables
    ensures LiteralsOnlyIn(Upgraded(db), CkScopeId)
  {
    var d, n := Upgraded(db), db.nextOid;
    NextTypeUnused(db);
    forall t, k | t in d.tables && k in d.tables[t].checks && HasLiteralOf(d.tables[t].checks[k], n)
      ensures t == RateLimitRules && k == CkScopeId
    {
      assert k in db.tables[t].checks ==> !HasLiteralOf(db.tables[t].checks[k], n);
    }
    forall k | k in d.indexes && HasLiteralOf(d.indexes[k].filter, n) ensures k == UqOrgDefault {
      assert k in db.indexes ==> !HasLiteralOf(db.indexes[k].filter, n);
    }
  }

  lemma UpgradedUserScope(db: Db)
    requires Consistent(db) && RateLimitRules in db.tables && RejectionEvents in db.tables
    requires ScopeUserId !in db.tables[RateLimitRules].columns
    ensures UserScopeOk(Upgraded(db))
  {
    NewColumnUnused(db);
  }

  lemma UpgradedOtherChecks(db: Db)
    requires RateLimitRules in db.tables && RejectionEvents in db.tables
    requires var checks := db.tables[RateLimitRules].checks;
             CkAtLeastOneLimit in checks && checks[CkAtLeastOneLimit] == LIMIT_EXPR
    ensures OtherChecksOk(Upgraded(db)) && IndexesOk(Upgraded(db))
  {
  }

  lemma UpgradedIsConsistent(db: Db)
    requires Schema0033(db)
    ensures Consistent(Upgraded(db))
  {
    UpgradeRuns(db);
    RunKeepsConsistent(db, UPGRADE_0034, 0);
  }

  lemma AreSchema0033(d: Db)
    requires Consistent(d) && ScopeTypeOk(d, OLD_VALUES) && IndexesOk(d) && LiteralsOnlyIn(d, CkScopeTeam)
    requires var rules := d.tables[RateLimitRules];
             && ScopeUserId !in rules.columns && UqUserScoped !in d.indexes && CkScopeId !in rules.checks
             && CkScopeTeam in rules.checks && rules.checks[CkScopeTeam] == TwoWay(Scope(d))
             && CkAtLeastOneLimit in rules.checks && rules.checks[CkAtLeastOneLimit] == LIMIT_EXPR
    ensures Schema0033(d)
  {
  }

  lemma AreSchema0034(d: Db)
    requires Consistent(d) && ScopeTypeOk(d, NEW_VALUES) && IndexesOk(d) && LiteralsOnlyIn(d, CkScopeId)
    requires UserScopeOk(d) && OtherChecksOk(d)
    ensures Schema0034(d)
  {
  }

  /** After 0034 the database has the new schema: all CHECKs and unique indexes hold, the three
      scope indexes and the three-way CHECK among them, and the at-least-one-limit CHECK stands. */
  lemma UpgradeGivesSchema0034(db: Db)
    requires Schema0033(db)
    ensures Run(db, UPGRADE_0034).Ok? && Schema0034(Run(db, UPGRADE_0034).value)
  {
    UpgradeRuns(db);
    UpgradedIsConsistent(db);
    UpgradedScope(db);
    UpgradedLiterals(db);
    UpgradedUserScope(db);
    UpgradedOtherChecks(db);
    AreSchema0034(Upgraded(db));
  }

  /** Nothing but the scope type, the rules' user column and the objects 0034 names differs
      between two databases, and the old rows keep their data. */
  ghost predicate OnlyUserScopeAdded(db: Db, d: Db)
    requires RateLimitRules in db.tables && RejectionEvents in db.tables
  {
    && d.tables.Keys == db.tables.Keys
    && (forall t :: t in db.tables && t != RateLimitRules && t != RejectionEvents ==> d.tables[t] == db.tables[t])
    && d.tables[RejectionEvents].rows == db.tables[RejectionEvents].rows
    && d.tables[RejectionEvents].checks == db.tables[RejectionEvents].checks
    && var before, after := db.tables[RateLimitRules], d.tables[RateLimitRules];
    && after.rows.Keys == before.rows.Keys
    && (forall i :: i in before.rows ==>
          after.rows[i] - {ScopeUserId} == before.rows[i] && Get(after.rows[i], ScopeUserId) == Null)
    && (forall k :: k in before.checks && k != CkScopeTeam ==> k in after.checks && after.checks[k] == before.checks[k])
    && (forall k :: k in db.indexes && k != UqOrgDefault ==> k in d.indexes && d.indexes[k] == db.indexes[k])
  }

  lemma UpgradeKeepsRows(db: Db)
    requires Schema0033(db)
    ensures Run(db, UPGRADE_0034).Ok? && OnlyUserScopeAdded(db, Run(db, UPGRADE_0034).value)
  {
    UpgradeRuns(db);
    OnlyUserScopeIsAdded(db);
  }

  lemma OnlyUserScopeIsAdded(db: Db)
    requires RateLimitRules in db.tables && RejectionEvents in db.tables
    requires TableOk(db.enums, db.tables[RateLimitRules]) && ScopeUserId !in db.tables[RateLimitRules].columns
    requires CkScopeId !in db.tables[RateLimitRules].checks && UqUserScoped !in db.indexes
    requires UqTeamScoped in db.indexes && db.indexes[UqTeamScoped] == TEAM_INDEX
    ensures OnlyUserScopeAdded(db, Upgraded(db))
  {
    NullColumnAddsNothing(db.enums, db.tables[RateLimitRules]);
  }

  lemma NullColumnAddsNothing(enums: map<nat, seq<string>>, t: Table)
    requires TableOk(enums, t) && ScopeUserId !in t.columns
    ensures forall i :: i in t.rows ==>
              t.rows[i][ScopeUserId := Null] - {ScopeUserId} == t.rows[i]
    ensures WithoutColumn(WithColumn(t.rows, ScopeUserId, Null), ScopeUserId) == t.rows
  {
    forall i | i in t.rows ensures t.rows[i][ScopeUserId := Null] - {ScopeUserId} == t.rows[i] {
      assert RowOk(enums, t.columns, t.rows[i]);
    }
  }

  // ---------------------------------------------------------------- downgrade

  function UserScopeRemoved(db: Db): Db
    requires RateLimitRules in db.tables
  {
    var rules := db.tables[RateLimitRules];
    db.(tables := db.tables[RateLimitRules :=
          Table(rules.columns - {ScopeUserId}, WithoutColumn(rules.rows, ScopeUserId), rules.checks - {CkScopeId})],
        indexes := db.indexes - {UqUserScoped} - {UqOrgDefault} - {UqTeamScoped})
  }

  lemma UserScopeColumnGoes(db: Db, rules: Table)
    requires RateLimitRules in db.tables && db.tables[RateLimitRules] == rules && ScopeUserId in rules.columns
    requires forall k :: k in db.indexes ==> !Uses(db.indexes[k], RateLimitRules, ScopeUserId)
    requires forall k :: k in rules.checks ==> !Mentions(rules.checks[k], ScopeUserId)
    ensures Perform(db, DropColumn(RateLimitRules, ScopeUserId)) ==
              Ok(SetTable(db, RateLimitRules,
                   Table(rules.columns - {ScopeUserId}, WithoutColumn(rules.rows, ScopeUserId), rules.checks)))
  {
    ChecksStay(rules.checks, ScopeUserId);
    IndexesStay(db.indexes, RateLimitRules, ScopeUserId);
    OnlyColumnLost(db, RateLimitRules, ScopeUserId);
  }

  function UserColumnRemoved(db: Db): Db
    requires RateLimitRules in db.tables
  {
    UserScopeRemoved(db).(indexes := db.indexes - {UqUserScoped})
  }

  lemma UserColumnGoes(db: Db)
    requires RateLimitRules in db.tables && UqUserScoped in db.indexes && !db.indexes[UqUserScoped].isConstraint
    requires var rules := db.tables[RateLimitRules];
             && CkScopeId in rules.checks && ScopeUserId in rules.columns
             && (forall k :: k in db.indexes && k != UqUserScoped ==> !Uses(db.indexes[k], RateLimitRules, ScopeUserId))
             && (forall k :: k in rules.checks && k != CkScopeId ==> !Mentions(rules.checks[k], ScopeUserId))
    ensures Run(db, REMOVE_USER_SCOPE, 0) == Run(UserColumnRemoved(db), REMOVE_USER_SCOPE, 3)
  {
    var rules, script := db.tables[RateLimitRules], REMOVE_USER_SCOPE;
    var d1 := db.(indexes := db.indexes - {UqUserScoped});
    var d2 := SetTable(d1, RateLimitRules, rules.(checks := rules.checks - {CkScopeId}));
    RunStep(db, script, 0, Ok(d1));
    RunStep(d1, script, 1, Ok(d2));
    UserScopeColumnGoes(d2, d2.tables[RateLimitRules]);
    assert Perform(d2, script[2]).value == UserColumnRemoved(db);
    RunStep(d2, script, 2, Ok(UserColumnRemoved(db)));
  }

  lemma IndexesGo(d: Db)
    requires IndexesOk(d)
    ensures Run(d, REMOVE_USER_SCOPE, 3) == Ok(d.(indexes := d.indexes - {UqOrgDefault} - {UqTeamScoped}))
  {
    var d4 := d.(indexes := d.indexes - {UqOrgDefault});
    RunStep(d, REMOVE_USER_SCOPE, 3, Ok(d4));
    RunStep(d4, REMOVE_USER_SCOPE, 4, Ok(d4.(indexes := d4.indexes - {UqTeamScoped})));
  }

  lemma RemoveUserScopeRuns(db: Db)
    requires RateLimitRules in db.tables && UserScopeOk(db) && IndexesOk(db)
    ensures Run(db, REMOVE_USER_SCOPE) == Ok(UserScopeRemoved(db))
  {
    UserColumnGoes(db);
    UserIndexGoes(db);
    IndexesGo(UserColumnRemoved(db));
  }

  lemma UserIndexGoes(db: Db)
    requires RateLimitRules in db.tables && IndexesOk(db)
    ensures IndexesOk(UserColumnRemoved(db))
    ensures UserScopeRemoved(db) ==
              UserColumnRemoved(db).(indexes := UserColumnRemoved(db).indexes - {UqOrgDefault} - {UqTeamScoped})
  {
  }

  lemma RemovedIsConsistent(db: Db)
    requires Consistent(db) && RateLimitRules in db.tables && UserScopeOk(db) && IndexesOk(db)
    ensures Consistent(UserScopeRemoved(db))
  {
    RemoveUserScopeRuns(db);
    RunKeepsConsistent(db, REMOVE_USER_SCOPE, 0);
  }

  lemma RemovedScope(db: Db)
    requires ScopeTypeOk(db, NEW_VALUES)
    ensures ScopeTypeOk(UserScopeRemoved(db), NEW_VALUES)
  {
    var d := UserScopeRemoved(db);
    forall t, c | t in d.tables && c in d.tables[t].columns
      ensures d.tables[t].columns[c].ctype == Enum(Scope(db)) <==>
                c == ScopeType && (t == RateLimitRules || t == RejectionEvents)
    {
      assert t in db.tables && c in db.tables[t].columns;
    }
  }

  lemma RemovedLiterals(db: Db)
    requires RateLimitRules in db.tables && LiteralsOnlyIn(db, CkScopeId)
    ensures var d := UserScopeRemoved(db);
            && (forall t, k :: t in d.tables && k in d.tables[t].checks ==> !HasLiteralOf(d.tables[t].checks[k], Scope(d)))
            && (forall k :: k in d.indexes ==> !HasLiteralOf(d.indexes[k].filter, Scope(d)))
  {
    var d := UserScopeRemoved(db);
    forall t, k | t in d.tables && k in d.tables[t].checks ensures !HasLiteralOf(d.tables[t].checks[k], Scope(d)) {
      assert k in db.tables[t].checks;
    }
  }

  lemma RemovedIsRebuildable(db: Db)
    requires Schema0034(db)
    ensures Rebuildable(UserScopeRemoved(db), ScopeTypeNewName, NEW_VALUES, OLD_VALUES)
  {
    RemovedIsConsistent(db);
    RemovedScope(db);
    RemovedLiterals(db);
    RemovedUniques(db);
  }

  lemma RemovedUniques(db: Db)
    requires Consistent(db) && IndexesOk(db) && RateLimitRules in db.tables
    ensures var rows := WithoutColumn(db.tables[RateLimitRules].rows, ScopeUserId);
            Unique(OrgDefaultIndex(Scope(db)), rows) && Unique(TEAM_INDEX, rows)
  {
    var columns := db.tables[RateLimitRules].columns - {ScopeUserId};
    var rows := db.tables[RateLimitRules].rows;
    assert IndexOk(db.tables, db.indexes[UqOrgDefault]) && IndexOk(db.tables, db.indexes[UqTeamScoped]);
    WithoutColumnAgrees(columns, rows, ScopeUserId);
    assert OrgDefaultIndex(Scope(db)).columns[0] == OrgId && TEAM_INDEX.columns[0] == ScopeTeamId;
    UniqueSame(columns, OrgDefaultIndex(Scope(db)), rows, WithoutColumn(rows, ScopeUserId));
    UniqueSame(columns, TEAM_INDEX, rows, WithoutColumn(rows, ScopeUserId));
  }

  /** No row of the table is scoped to a user: what an operator can look up before a downgrade. */
  predicate NoUserScope(db: Db, t: TableName) {
    t in db.tables ==> forall i :: i in db.tables[t].rows ==> Get(db.tables[t].rows[i], ScopeType) != Text(USER)
  }

  lemma RemovedScopesIn(db: Db, t: TableName)
    requires RateLimitRules in db.tables && ScopesIn(db, t, NEW_VALUES)
    ensures ScopesIn(UserScopeRemoved(db), t, OLD_VALUES) <==> NoUserScope(db, t)
  {
    var d := UserScopeRemoved(db);
    if t in db.tables {
      OldIffNotUser(db.tables[t].rows);
      assert forall i :: i in db.tables[t].rows ==>
        Get(d.tables[t].rows[i], ScopeType) == Get(db.tables[t].rows[i], ScopeType);
      if ScopesIn(d, t, OLD_VALUES) {
        forall i | i in db.tables[t].rows ensures Get(db.tables[t].rows[i], ScopeType) != Text(USER) {
          assert LabelIn(d.tables[t].rows[i], OLD_VALUES);
        }
      }
    }
  }

  lemma OldScopesIffNoUser(db: Db)
    requires Schema0034(db)
    ensures ScopesIn(UserScopeRemoved(db), RateLimitRules, OLD_VALUES) <==> NoUserScope(db, RateLimitRules)
    ensures ScopesIn(UserScopeRemoved(db), RejectionEvents, OLD_VALUES) <==> NoUserScope(db, RejectionEvents)
  {
    ScopesAreLabels(db, RateLimitRules, NEW_VALUES);
    ScopesAreLabels(db, RejectionEvents, NEW_VALUES);
    RemovedScopesIn(db, RateLimitRules);
    RemovedScopesIn(db, RejectionEvents);
  }

  lemma OldIffNotUser(rows: map<RowId, Row>)
    requires forall i :: i in rows ==> LabelIn(rows[i], NEW_VALUES)
    ensures forall i :: i in rows ==> (LabelIn(rows[i], OLD_VALUES) <==> Get(rows[i], ScopeType) != Text(USER))
    ensures forall i :: i in rows ==> Get(rows[i] - {ScopeUserId}, ScopeType) == Get(rows[i], ScopeType)
  {
    LabelsDiffer();
    assert OLD_VALUES[0] == ORG_DEFAULT && OLD_VALUES[1] == TEAM;
  }

  /** A row that obeys the three-way CHECK and is not scoped to a user obeys the two-way one. */
  lemma ThreeWayGivesTwoWay(r: Row, o: nat, n: nat)
    requires LabelIn(r, OLD_VALUES) && Eval(ThreeWay(o), r) != No
    ensures Eval(TwoWay(n), r - {ScopeUserId}) != No
  {
    LabelsDiffer();
    var q, e := r - {ScopeUserId}, ThreeWay(o);
    assert Get(q, ScopeType) == Get(r, ScopeType) && Get(q, ScopeTeamId) == Get(r, ScopeTeamId);
    assert Eval(e.right.left.left, r) == No && Eval(e.right.left, r) == No && Eval(e.right, r) == No;
    if Get(r, ScopeType).text == ORG_DEFAULT {
      assert Eval(e.left.right.left.left, r) == No && Eval(e.left.right.left, r) == No && Eval(e.left.right, r) == No;
      assert Eval(e.left, r) != No && Eval(e.left.left, r) != No;
      assert Eval(e.left.left.left, r) != No && Eval(e.left.left.left.right, r) == Yes;
      assert Eval(TwoWay(n).left, q) == Yes;
    } else {
      assert Get(r, ScopeType).text == TEAM;
      assert Eval(e.left.left.left.left, r) == No && Eval(e.left.left.left, r) == No && Eval(e.left.left, r) == No;
      assert Eval(e.left, r) != No && Eval(e.left.right, r) != No;
      assert Eval(e.left.right.left, r) != No && Eval(e.left.right.left.right, r) == Yes;
      assert Eval(TwoWay(n).right, q) == Yes;
    }
  }

  /** Recreating the two-way CHECK over the narrower type. */
  lemma RestoreCheckRuns(d: Db, n: nat)
    requires RateLimitRules in d.tables && n in d.enums && d.enums[n] == OLD_VALUES
    requires var t := d.tables[RateLimitRules];
             && ScopeType in t.columns && t.columns[ScopeType].ctype == Enum(n) && ScopeTeamId in t.columns
             && CkScopeTeam !in t.checks && Satisfies(TwoWay(n), t.rows)
    ensures var t := d.tables[RateLimitRules];
            Run(d, RESTORE_CHECK) == Ok(SetTable(d, RateLimitRules, t.(checks := t.checks[CkScopeTeam := TwoWay(n)])))
  {
    var t, e := d.tables[RateLimitRules], TwoWay(n);
    assert ORG_DEFAULT == OLD_VALUES[0] && TEAM == OLD_VALUES[1];
    assert Bind(t.columns, d.enums, TWO_WAY.left) == Ok(e.left);
    assert Bind(t.columns, d.enums, TWO_WAY.right) == Ok(e.right);
    assert Bind(t.columns, d.enums, TWO_WAY) == Ok(e);
    RunStep(d, RESTORE_CHECK, 0, Ok(SetTable(d, RateLimitRules, t.(checks := t.checks[CkScopeTeam := e]))));
  }

  function DowngradedRules(rules: Table, n: nat): Table {
    Table(Retyped(rules, n).columns - {ScopeUserId},
          WithoutColumn(rules.rows, ScopeUserId),
          (rules.checks - {CkScopeId})[CkScopeTeam := TwoWay(n)])
  }

  /** The database after 0034 is undone, part by part. */
  function Downgraded(db: Db): Db
    requires RateLimitRules in db.tables && RejectionEvents in db.tables
  {
    var n := db.nextOid;
    Db(db.types[ScopeTypeName := n],
       (db.enums - {Scope(db)})[n := OLD_VALUES],
       db.tables[RateLimitRules := DowngradedRules(db.tables[RateLimitRules], n)]
                [RejectionEvents := Retyped(db.tables[RejectionEvents], n)],
       (db.indexes - {UqUserScoped})[UqOrgDefault := OrgDefaultIndex(n)][UqTeamScoped := TEAM_INDEX],
       n + 1)
  }

  lemma DowngradedRulesAre(rules: Table, n: nat)
    requires ScopeType in rules.columns
    ensures var t := Retyped(Table(rules.columns - {ScopeUserId}, WithoutColumn(rules.rows, ScopeUserId),
                                   rules.checks - {CkScopeId}), n);
            t.(checks := t.checks[CkScopeTeam := TwoWay(n)]) == DowngradedRules(rules, n)
  {
  }

  lemma DowngradedIndexesAre(indexes: map<IndexName, Index>, n: nat)
    ensures (indexes - {UqUserScoped} - {UqOrgDefault} - {UqTeamScoped})
              [UqOrgDefault := OrgDefaultIndex(n)][UqTeamScoped := TEAM_INDEX] ==
            (indexes - {UqUserScoped})[UqOrgDefault := OrgDefaultIndex(n)][UqTeamScoped := TEAM_INDEX]
  {
  }

  lemma DowngradedIsTheSteps(db: Db)
    requires RateLimitRules in db.tables && RejectionEvents in db.tables && ScopeTypeName in db.types
    requires ScopeType in db.tables[RateLimitRules].columns
    ensures var d := Rebuilt(UserScopeRemoved(db), OLD_VALUES);
            var t := d.tables[RateLimitRules];
            SetTable(d, RateLimitRules, t.(checks := t.checks[CkScopeTeam := TwoWay(db.nextOid)])) == Downgraded(db)
  {
    DowngradedRulesAre(db.tables[RateLimitRules], db.nextOid);
    DowngradedIndexesAre(db.indexes, db.nextOid);
  }

  lemma RemovedSatisfiesTwoWay(db: Db)
    requires Schema0034(db) && NoUserScope(db, RateLimitRules)
    ensures Satisfies(TwoWay(db.nextOid), WithoutColumn(db.tables[RateLimitRules].rows, ScopeUserId))
  {
    var rows := db.tables[RateLimitRules].rows;
    assert TableOk(db.enums, db.tables[RateLimitRules]);
    ScopesAreLabels(db, RateLimitRules, NEW_VALUES);
    OldIffNotUser(rows);
    forall i | i in rows ensures Eval(TwoWay(db.nextOid), rows[i] - {ScopeUserId}) != No {
      ThreeWayGivesTwoWay(rows[i], Scope(db), db.nextOid);
    }
  }

  lemma RebuiltRules(db: Db)
    requires RateLimitRules in db.tables && RejectionEvents in db.tables
    requires ScopeType in db.tables[RateLimitRules].columns && ScopeTeamId in db.tables[RateLimitRules].columns
    requires CkScopeTeam !in db.tables[RateLimitRules].checks
    ensures var d := Rebuilt(UserScopeRemoved(db), OLD_VALUES); var t, n := d.tables[RateLimitRules], db.nextOid;
            && n in d.enums && d.enums[n] == OLD_VALUES
            && ScopeType in t.columns && t.columns[ScopeType].ctype == Enum(n) && ScopeTeamId in t.columns
            && CkScopeTeam !in t.checks && t.rows == WithoutColumn(db.tables[RateLimitRules].rows, ScopeUserId)
  {
  }

  lemma DowngradeEnds(db: Db)
    requires Schema0034(db) && NoUserScope(db, RateLimitRules)
    ensures Run(Rebuilt(UserScopeRemoved(db), OLD_VALUES), RESTORE_CHECK) == Ok(Downgraded(db))
  {
    RemovedSatisfiesTwoWay(db);
    RebuiltRules(db);
    RestoreCheckRuns(Rebuilt(UserScopeRemoved(db), OLD_VALUES), db.nextOid);
    DowngradedIsTheSteps(db);
  }

  /** 0034 can be undone exactly when neither table has a row scoped to a user. */
  lemma DowngradeRunsIff(db: Db)
    requires Schema0034(db)
    ensures Run(db, DOWNGRADE_0034) ==
              if NoUserScope(db, RateLimitRules) && NoUserScope(db, RejectionEvents)
              then Ok(Downgraded(db)) else Err(InvalidLabel)
  {
    var d := UserScopeRemoved(db);
    RemoveUserScopeRuns(db);
    RemovedIsRebuildable(db);
    RebuildRuns(d, ScopeTypeNewName, NEW_VALUES, OLD_VALUES);
    OldScopesIffNoUser(db);
    RunThree(db, REMOVE_USER_SCOPE, Rebuild(ScopeTypeNewName, OLD_VALUES), RESTORE_CHECK, d);
    if NoUserScope(db, RateLimitRules) {
      DowngradeEnds(db);
    }
  }
}
