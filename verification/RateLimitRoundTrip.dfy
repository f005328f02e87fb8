/** Migration 0034 and its downgrade undo each other, up to the identity of the rebuilt type. */
module RateLimitRoundTrip {
  import opened Catalog
  import opened CatalogInvariant
  import opened RateLimitMigration

  // ---------------------------------------------------------------- giving a type a new identity

  function RenumberType(t: ColumnType, o: nat, m: nat): ColumnType {
    if t == Enum(o) then Enum(m) else t
  }

  function RenumberExpr(e: Expr, o: nat, m: nat): Expr {
    match e
    case EEquals(c, t, text) => EEquals(c, RenumberType(t, o, m), text)
    case EAnd(a, b) => EAnd(RenumberExpr(a, o, m), RenumberExpr(b, o, m))
    case EOr(a, b) => EOr(RenumberExpr(a, o, m), RenumberExpr(b, o, m))
    case _ => e
  }

  function RenumberColumns(columns: map<Column, ColumnDef>, o: nat, m: nat): map<Column, ColumnDef> {
    map c | c in columns :: columns[c].(ctype := RenumberType(columns[c].ctype, o, m))
  }

  function RenumberChecks(checks: map<CheckName, Expr>, o: nat, m: nat): map<CheckName, Expr> {
    map k | k in checks :: RenumberExpr(checks[k], o, m)
  }

  function RenumberTable(t: Table, o: nat, m: nat): Table {
    Table(RenumberColumns(t.columns, o, m), t.rows, RenumberChecks(t.checks, o, m))
  }

  /** The same database with type `o` known as `m` everywhere; the rows are untouched. */
  function Renumber(db: Db, o: nat, m: nat): Db
    requires o in db.enums
  {
    Db(map n | n in db.types :: if db.types[n] == o then m else db.types[n],
       (db.enums - {o})[m := db.enums[o]],
       map t | t in db.tables :: RenumberTable(db.tables[t], o, m),
       map k | k in db.indexes :: db.indexes[k].(filter := RenumberExpr(db.indexes[k].filter, o, m)),
       m + 1)
  }

  lemma {:induction false} RenumberNothing(e: Expr, o: nat, m: nat)
    requires !HasLiteralOf(e, o)
    ensures RenumberExpr(e, o, m) == e
  {
    match e
    case EAnd(a, b) =>
      RenumberNothing(a, o, m);
      RenumberNothing(b, o, m);
    case EOr(a, b) =>
      RenumberNothing(a, o, m);
      RenumberNothing(b, o, m);
    case _ =>
  }

  lemma RenumberTwoWay(o: nat, m: nat)
    ensures RenumberExpr(TwoWay(o), o, m) == TwoWay(m)
  {
    var e, f := TwoWay(o), TwoWay(m);
    assert RenumberExpr(e.left, o, m) == f.left && RenumberExpr(e.right, o, m) == f.right;
  }

  lemma RenumberThreeWay(o: nat, m: nat)
    ensures RenumberExpr(ThreeWay(o), o, m) == ThreeWay(m)
  {
    var e, f := ThreeWay(o), ThreeWay(m);
    assert RenumberExpr(e.left.left.left, o, m) == f.left.left.left;
    assert RenumberExpr(e.left.right.left, o, m) == f.left.right.left;
    assert RenumberExpr(e.left.left, o, m) == f.left.left && RenumberExpr(e.left.right, o, m) == f.left.right;
    assert RenumberExpr(e.left, o, m) == f.left;
    assert RenumberExpr(e.right.left, o, m) == f.right.left;
    assert RenumberExpr(e.right, o, m) == f.right;
  }

  // ---------------------------------------------------------------- part by part

  /** No other name stands for the scope type. */
  ghost predicate OwnType(db: Db) {
    && ScopeTypeName in db.types && Scope(db) in db.enums && db.nextOid !in db.enums
    && forall n :: n in db.types && n != ScopeTypeName ==> db.types[n] != Scope(db)
  }

  lemma RenumberedTypes(db: Db, m: nat)
    requires OwnType(db)
    ensures Renumber(db, Scope(db), m).types == db.types[ScopeTypeName := m]
  {
  }

  lemma RenumberedColumns(columns: map<Column, ColumnDef>, o: nat, m: nat)
    requires forall c :: c in columns ==> (columns[c].ctype == Enum(o) <==> c == ScopeType)
    requires ScopeType in columns
    ensures RenumberColumns(columns, o, m) == columns[ScopeType := columns[ScopeType].(ctype := Enum(m))]
  {
  }

  lemma RenumberedChecks(checks: map<CheckName, Expr>, k: CheckName, o: nat, m: nat)
    requires k in checks && forall j :: j in checks && j != k ==> !HasLiteralOf(checks[j], o)
    ensures RenumberChecks(checks, o, m) == checks[k := RenumberExpr(checks[k], o, m)]
  {
    forall j | j in checks && j != k ensures RenumberExpr(checks[j], o, m) == checks[j] {
      RenumberNothing(checks[j], o, m);
    }
  }

  lemma RenumberedOther(t: Table, o: nat, m: nat)
    requires forall c :: c in t.columns ==> t.columns[c].ctype != Enum(o)
    requires forall k :: k in t.checks ==> !HasLiteralOf(t.checks[k], o)
    ensures RenumberTable(t, o, m) == t
  {
    forall k | k in t.checks ensures RenumberExpr(t.checks[k], o, m) == t.checks[k] {
      RenumberNothing(t.checks[k], o, m);
    }
    assert RenumberColumns(t.columns, o, m) == t.columns && RenumberChecks(t.checks, o, m) == t.checks;
  }

  lemma RenumberedIndexes(db: Db, check: CheckName, m: nat)
    requires RateLimitRules in db.tables && LiteralsOnlyIn(db, check) && IndexesOk(db) && Scope(db) in db.enums
    ensures Renumber(db, Scope(db), m).indexes == db.indexes[UqOrgDefault := OrgDefaultIndex(m)]
  {
    var r := Renumber(db, Scope(db), m).indexes;
    forall k | k in db.indexes && k != UqOrgDefault ensures r[k] == db.indexes[k] {
      RenumberNothing(db.indexes[k].filter, Scope(db), m);
    }
    assert r[UqOrgDefault] == OrgDefaultIndex(m);
  }

  lemma RenumberedRules(db: Db, labels: seq<string>, check: CheckName, m: nat)
    requires ScopeTypeOk(db, labels) && LiteralsOnlyIn(db, check) && check in db.tables[RateLimitRules].checks
    ensures var rules := db.tables[RateLimitRules];
            RenumberTable(rules, Scope(db), m) ==
              Table(Retyped(rules, m).columns, rules.rows,
                    rules.checks[check := RenumberExpr(rules.checks[check], Scope(db), m)])
  {
    var rules := db.tables[RateLimitRules];
    RenumberedColumns(rules.columns, Scope(db), m);
    RenumberedChecks(rules.checks, check, Scope(db), m);
  }

  lemma RenumberedEvents(db: Db, labels: seq<string>, check: CheckName, m: nat)
    requires ScopeTypeOk(db, labels) && LiteralsOnlyIn(db, check)
    ensures RenumberTable(db.tables[RejectionEvents], Scope(db), m) == Retyped(db.tables[RejectionEvents], m)
  {
    var events := db.tables[RejectionEvents];
    RenumberedColumns(events.columns, Scope(db), m);
    forall k | k in events.checks ensures RenumberExpr(events.checks[k], Scope(db), m) == events.checks[k] {
      RenumberNothing(events.checks[k], Scope(db), m);
    }
    assert RenumberChecks(events.checks, Scope(db), m) == events.checks;
  }

  lemma RenumberedTables(db: Db, labels: seq<string>, check: CheckName, m: nat)
    requires ScopeTypeOk(db, labels) && LiteralsOnlyIn(db, check)
    ensures Renumber(db, Scope(db), m).tables ==
              db.tables[RateLimitRules := RenumberTable(db.tables[RateLimitRules], Scope(db), m)]
                       [RejectionEvents := RenumberTable(db.tables[RejectionEvents], Scope(db), m)]
  {
    forall t | t in db.tables && t != RateLimitRules && t != RejectionEvents
      ensures RenumberTable(db.tables[t], Scope(db), m) == db.tables[t]
    {
      RenumberedOther(db.tables[t], Scope(db), m);
    }
  }

  // ---------------------------------------------------------------- downgrade after upgrade

  lemma RulesUpAndDown(rules: Table, o: nat, n: nat, m: nat)
    requires ScopeType in rules.columns && ScopeUserId !in rules.columns
    requires CkScopeTeam in rules.checks && CkScopeId !in rules.checks
    requires WithoutColumn(WithColumn(rules.rows, ScopeUserId, Null), ScopeUserId) == rules.rows
    ensures DowngradedRules(UpgradedRules(rules, n), m) ==
              Table(Retyped(rules, m).columns, rules.rows, rules.checks[CkScopeTeam := TwoWay(m)])
  {
    var there := UpgradedRules(rules, n);
    var back := DowngradedRules(there, m);
    assert Retyped(there, m).columns == Retyped(rules, m).columns[ScopeUserId := OPTIONAL];
    assert Retyped(rules, m).columns[ScopeUserId := OPTIONAL] - {ScopeUserId} == Retyped(rules, m).columns;
    assert back.checks == rules.checks[CkScopeTeam := TwoWay(m)];
  }

  /** The tables of a database with both scope_type columns of type `m` and this CHECK. */
  function Settled(db: Db, m: nat, check: CheckName, e: Expr): map<TableName, Table>
    requires RateLimitRules in db.tables && RejectionEvents in db.tables
  {
    var rules := db.tables[RateLimitRules];
    db.tables[RateLimitRules := Table(Retyped(rules, m).columns, rules.rows, rules.checks[check := e])]
             [RejectionEvents := Retyped(db.tables[RejectionEvents], m)]
  }

  lemma RenumberSettles(db: Db, labels: seq<string>, check: CheckName, m: nat)
    requires ScopeTypeOk(db, labels) && LiteralsOnlyIn(db, check) && check in db.tables[RateLimitRules].checks
    ensures Renumber(db, Scope(db), m).tables ==
              Settled(db, m, check, RenumberExpr(db.tables[RateLimitRules].checks[check], Scope(db), m))
  {
    RenumberedRules(db, labels, check, m);
    RenumberedEvents(db, labels, check, m);
    RenumberedTables(db, labels, check, m);
  }

  lemma RetypedTwice(t: Table, n: nat, m: nat)
    ensures Retyped(Retyped(t, n), m) == Retyped(t, m)
  {
  }

  lemma UpAndDownSettles(db: Db)
    requires RateLimitRules in db.tables && RejectionEvents in db.tables
    requires TableOk(db.enums, db.tables[RateLimitRules])
    requires var rules := db.tables[RateLimitRules];
             && ScopeType in rules.columns && ScopeUserId !in rules.columns
             && CkScopeTeam in rules.checks && CkScopeId !in rules.checks
    ensures Downgraded(Upgraded(db)).tables == Settled(db, db.nextOid + 1, CkScopeTeam, TwoWay(db.nextOid + 1))
  {
    var n, m, rules := db.nextOid, db.nextOid + 1, db.tables[RateLimitRules];
    NullColumnAddsNothing(db.enums, rules);
    RulesUpAndDown(rules, Scope(db), n, m);
    RetypedTwice(db.tables[RejectionEvents], n, m);
  }

  lemma ReplacedTwice(enums: map<nat, seq<string>>, o: nat, n: nat, m: nat, a: seq<string>, b: seq<string>)
    requires n !in enums && m != n
    ensures ((enums - {o})[n := a] - {n})[m := b] == (enums - {o})[m := b]
  {
  }

  lemma UpAndDownReplaces(db: Db)
    requires RateLimitRules in db.tables && RejectionEvents in db.tables && db.nextOid !in db.enums
    requires UqUserScoped !in db.indexes && UqTeamScoped in db.indexes && db.indexes[UqTeamScoped] == TEAM_INDEX
    ensures var d, m := Downgraded(Upgraded(db)), db.nextOid + 1;
            && d.types == db.types[ScopeTypeName := m] && d.enums == (db.enums - {Scope(db)})[m := OLD_VALUES]
            && d.indexes == db.indexes[UqOrgDefault := OrgDefaultIndex(m)] && d.nextOid == m + 1
  {
    assert Scope(Upgraded(db)) == db.nextOid;
    ReplacedTwice(db.enums, Scope(db), db.nextOid, db.nextOid + 1, NEW_VALUES, OLD_VALUES);
  }

  lemma RenumberRest(db: Db, labels: seq<string>, check: CheckName, m: nat)
    requires OwnType(db) && db.enums[Scope(db)] == labels
    requires RateLimitRules in db.tables && IndexesOk(db) && LiteralsOnlyIn(db, check)
    ensures var r := Renumber(db, Scope(db), m);
            && r.types == db.types[ScopeTypeName := m] && r.enums == (db.enums - {Scope(db)})[m := labels]
            && r.indexes == db.indexes[UqOrgDefault := OrgDefaultIndex(m)] && r.nextOid == m + 1
  {
    RenumberedTypes(db, m);
    RenumberedIndexes(db, check, m);
  }

  lemma UpgradedHasNoUser(db: Db)
    requires Schema0033(db)
    ensures NoUserScope(Upgraded(db), RateLimitRules) && NoUserScope(Upgraded(db), RejectionEvents)
  {
    LabelsDiffer();
    ScopesAreLabels(db, RateLimitRules, OLD_VALUES);
    ScopesAreLabels(db, RejectionEvents, OLD_VALUES);
    OnlyOldScopes(db.tables[RateLimitRules].rows);
    OnlyOldScopes(db.tables[RejectionEvents].rows);
  }

  lemma OnlyOldScopes(rows: map<RowId, Row>)
    requires forall i :: i in rows ==> LabelIn(rows[i], OLD_VALUES)
    ensures forall i :: i in rows ==> Get(rows[i], ScopeType) != Text(USER)
    ensures forall i :: i in rows ==> Get(rows[i][ScopeUserId := Null], ScopeType) != Text(USER)
  {
    LabelsDiffer();
    assert OLD_VALUES[0] == ORG_DEFAULT && OLD_VALUES[1] == TEAM;
  }

  lemma UpAndDownTables(db: Db)
    requires ScopeTypeOk(db, OLD_VALUES) && LiteralsOnlyIn(db, CkScopeTeam)
    requires TableOk(db.enums, db.tables[RateLimitRules])
    requires var rules := db.tables[RateLimitRules];
             && ScopeUserId !in rules.columns && CkScopeId !in rules.checks
             && CkScopeTeam in rules.checks && rules.checks[CkScopeTeam] == TwoWay(Scope(db))
    ensures Downgraded(Upgraded(db)).tables == Renumber(db, Scope(db), db.nextOid + 1).tables
  {
    UpAndDownSettles(db);
    RenumberTwoWay(Scope(db), db.nextOid + 1);
    RenumberSettles(db, OLD_VALUES, CkScopeTeam, db.nextOid + 1);
  }

  lemma UpAndDownRest(db: Db)
    requires OwnType(db) && db.enums[Scope(db)] == OLD_VALUES
    requires RateLimitRules in db.tables && RejectionEvents in db.tables
    requires IndexesOk(db) && LiteralsOnlyIn(db, CkScopeTeam)
    requires UqUserScoped !in db.indexes
    ensures var d, r := Downgraded(Upgraded(db)), Renumber(db, Scope(db), db.nextOid + 1);
            d.types == r.types && d.enums == r.enums && d.indexes == r.indexes && d.nextOid == r.nextOid
  {
    UpAndDownReplaces(db);
    RenumberRest(db, OLD_VALUES, CkScopeTeam, db.nextOid + 1);
  }

  lemma UpAndDownIsRenumber(db: Db)
    requires Schema0033(db)
    ensures Downgraded(Upgraded(db)) == Renumber(db, Scope(db), db.nextOid + 1)
  {
    UpAndDownTables(db);
    UpAndDownRest(db);
  }

  lemma UpgradedCanDowngrade(db: Db)
    requires Schema0033(db)
    ensures Run(Upgraded(db), DOWNGRADE_0034) == Ok(Downgraded(Upgraded(db)))
  {
    UpgradeRuns(db);
    UpgradeGivesSchema0034(db);
    UpgradedHasNoUser(db);
    DowngradeRunsIff(Upgraded(db));
  }

  /** Upgrading and then downgrading always works, and gives back the same catalog and the same
      rows; only the scope type is a new one with the old name and labels. */
  lemma DowngradeUndoesUpgrade(db: Db)
    requires Schema0033(db)
    ensures Run(db, UPGRADE_0034).Ok?
    ensures Run(Run(db, UPGRADE_0034).value, DOWNGRADE_0034) == Ok(Renumber(db, Scope(db), db.nextOid + 1))
  {
    UpgradeRuns(db);
    UpgradedCanDowngrade(db);
    UpAndDownIsRenumber(db);
  }

  // ---------------------------------------------------------------- upgrade after downgrade

  /** A row with an old scope and a user would violate the three-way CHECK. */
  lemma OldScopeHasNoUser(r: Row, o: nat)
    requires LabelIn(r, OLD_VALUES)
    ensures Get(r, ScopeUserId) != Null ==> Eval(ThreeWay(o), r) == No
  {
    LabelsDiffer();
    var e := ThreeWay(o);
    assert Eval(e.right.left.left, r) == No && Eval(e.right.left, r) == No && Eval(e.right, r) == No;
    if Get(r, ScopeUserId) != Null {
      assert Eval(e.left.left.right, r) == No && Eval(e.left.left, r) == No;
      assert Eval(e.left.right.right, r) == No && Eval(e.left.right, r) == No;
    }
  }

  lemma RowDownAndUp(enums: map<nat, seq<string>>, columns: map<Column, ColumnDef>, r: Row, o: nat)
    requires RowOk(enums, columns, r) && ScopeUserId in columns
    requires LabelIn(r, OLD_VALUES) && Eval(ThreeWay(o), r) != No
    ensures (r - {ScopeUserId})[ScopeUserId := Null] == r
  {
    OldScopeHasNoUser(r, o);
  }

  lemma RowsDownAndUp(enums: map<nat, seq<string>>, t: Table, o: nat)
    requires TableOk(enums, t) && ScopeUserId in t.columns
    requires CkScopeId in t.checks && t.checks[CkScopeId] == ThreeWay(o)
    requires forall i :: i in t.rows ==> LabelIn(t.rows[i], OLD_VALUES)
    ensures WithColumn(WithoutColumn(t.rows, ScopeUserId), ScopeUserId, Null) == t.rows
  {
    forall i | i in t.rows ensures (t.rows[i] - {ScopeUserId})[ScopeUserId := Null] == t.rows[i] {
      assert Satisfies(t.checks[CkScopeId], t.rows);
      RowDownAndUp(enums, t.columns, t.rows[i], o);
    }
  }

  lemma DowngradedIsConsistent(db: Db)
    requires Schema0034(db) && NoUserScope(db, RateLimitRules) && NoUserScope(db, RejectionEvents)
    ensures Consistent(Downgraded(db))
  {
    DowngradeRunsIff(db);
    RunKeepsConsistent(db, DOWNGRADE_0034, 0);
  }

  lemma DowngradedScope(db: Db)
    requires Schema0034(db)
    ensures ScopeTypeOk(Downgraded(db), OLD_VALUES)
  {
    RemovedIsRebuildable(db);
    RebuiltScope(UserScopeRemoved(db), ScopeTypeNewName, NEW_VALUES, OLD_VALUES);
    CheckedScope(Rebuilt(UserScopeRemoved(db), OLD_VALUES), db.nextOid);
    DowngradedIsTheSteps(db);
  }

  lemma CheckedScope(d: Db, n: nat)
    requires ScopeTypeOk(d, OLD_VALUES)
    ensures var t := d.tables[RateLimitRules];
            ScopeTypeOk(SetTable(d, RateLimitRules, t.(checks := t.checks[CkScopeTeam := TwoWay(n)])), OLD_VALUES)
  {
  }

  lemma DowngradedLiterals(db: Db)
    requires Consistent(db) && RateLimitRules in db.tables && RejectionEvents in db.tables
    ensures LiteralsOnlyIn(Downgraded(db), CkScopeTeam)
  {
    var d, n := Downgraded(db), db.nextOid;
    NextTypeUnused(db);
    forall t, k | t in d.tables && k in d.tables[t].checks && HasLiteralOf(d.tables[t].checks[k], n)
      ensures t == RateLimitRules && k == CkScopeTeam
    {
      assert k in db.tables[t].checks ==> !HasLiteralOf(db.tables[t].checks[k], n);
    }
    forall k | k in d.indexes && HasLiteralOf(d.indexes[k].filter, n) ensures k == UqOrgDefault {
      assert k in db.indexes ==> !HasLiteralOf(db.indexes[k].filter, n);
    }
  }

  lemma DowngradedChecks(db: Db)
    requires RateLimitRules in db.tables && RejectionEvents in db.tables && OtherChecksOk(db)
    ensures var d := Downgraded(db); var rules := d.tables[RateLimitRules];
            && IndexesOk(d) && ScopeUserId !in rules.columns && UqUserScoped !in d.indexes
            && CkScopeId !in rules.checks
            && CkScopeTeam in rules.checks && rules.checks[CkScopeTeam] == TwoWay(Scope(d))
            && CkAtLeastOneLimit in rules.checks && rules.checks[CkAtLeastOneLimit] == LIMIT_EXPR
  {
  }

  lemma DowngradeGivesSchema0033(db: Db)
    requires Schema0034(db) && NoUserScope(db, RateLimitRules) && NoUserScope(db, RejectionEvents)
    ensures Schema0033(Downgraded(db))
  {
    DowngradedIsConsistent(db);
    DowngradedScope(db);
    DowngradedLiterals(db);
    DowngradedChecks(db);
    AreSchema0033(Downgraded(db));
  }

  lemma RulesDownAndUp(rules: Table, o: nat, n: nat, m: nat)
    requires ScopeType in rules.columns && ScopeUserId in rules.columns && rules.columns[ScopeUserId] == OPTIONAL
    requires CkScopeTeam !in rules.checks && CkScopeId in rules.checks
    requires WithColumn(WithoutColumn(rules.rows, ScopeUserId), ScopeUserId, Null) == rules.rows
    ensures UpgradedRules(DowngradedRules(rules, n), m) ==
              Table(Retyped(rules, m).columns, rules.rows, rules.checks[CkScopeId := ThreeWay(m)])
  {
    var there := DowngradedRules(rules, n);
    var back := UpgradedRules(there, m);
    assert back.columns == Retyped(rules, m).columns;
    assert back.checks == rules.checks[CkScopeId := ThreeWay(m)];
  }

  lemma DownAndUpSettles(db: Db)
    requires RateLimitRules in db.tables && RejectionEvents in db.tables
    requires var rules := db.tables[RateLimitRules];
             && ScopeType in rules.columns && ScopeUserId in rules.columns && rules.columns[ScopeUserId] == OPTIONAL
             && CkScopeTeam !in rules.checks && CkScopeId in rules.checks
             && WithColumn(WithoutColumn(rules.rows, ScopeUserId), ScopeUserId, Null) == rules.rows
    ensures Upgraded(Downgraded(db)).tables == Settled(db, db.nextOid + 1, CkScopeId, ThreeWay(db.nextOid + 1))
  {
    var n, m, rules := db.nextOid, db.nextOid + 1, db.tables[RateLimitRules];
    RulesDownAndUp(rules, Scope(db), n, m);
    RetypedTwice(db.tables[RejectionEvents], n, m);
  }

  lemma DownAndUpReplaces(db: Db)
    requires RateLimitRules in db.tables && RejectionEvents in db.tables && db.nextOid !in db.enums
    requires UqUserScoped in db.indexes && db.indexes[UqUserScoped] == USER_INDEX
    requires UqTeamScoped in db.indexes && db.indexes[UqTeamScoped] == TEAM_INDEX
    ensures var d, m := Upgraded(Downgraded(db)), db.nextOid + 1;
            && d.types == db.types[ScopeTypeName := m] && d.enums == (db.enums - {Scope(db)})[m := NEW_VALUES]
            && d.indexes == db.indexes[UqOrgDefault := OrgDefaultIndex(m)] && d.nextOid == m + 1
  {
    assert Scope(Downgraded(db)) == db.nextOid;
    ReplacedTwice(db.enums, Scope(db), db.nextOid, db.nextOid + 1, OLD_VALUES, NEW_VALUES);
    IndexesDownAndUp(db.indexes, db.nextOid);
  }

  lemma IndexesDownAndUp(indexes: map<IndexName, Index>, n: nat)
    requires UqUserScoped in indexes && indexes[UqUserScoped] == USER_INDEX
    requires UqTeamScoped in indexes && indexes[UqTeamScoped] == TEAM_INDEX
    ensures (indexes - {UqUserScoped})[UqOrgDefault := OrgDefaultIndex(n)][UqTeamScoped := TEAM_INDEX]
              [UqOrgDefault := OrgDefaultIndex(n + 1)][UqTeamScoped := TEAM_INDEX][UqUserScoped := USER_INDEX] ==
            indexes[UqOrgDefault := OrgDefaultIndex(n + 1)]
  {
  }

  lemma RulesRowsDownAndUp(db: Db)
    requires Schema0034(db) && NoUserScope(db, RateLimitRules)
    ensures var rows := db.tables[RateLimitRules].rows;
            WithColumn(WithoutColumn(rows, ScopeUserId), ScopeUserId, Null) == rows
  {
    ScopesAreLabels(db, RateLimitRules, NEW_VALUES);
    OldIffNotUser(db.tables[RateLimitRules].rows);
    RowsDownAndUp(db.enums, db.tables[RateLimitRules], Scope(db));
  }

  lemma DownAndUpTables(db: Db)
    requires ScopeTypeOk(db, NEW_VALUES) && LiteralsOnlyIn(db, CkScopeId)
    requires var rules := db.tables[RateLimitRules];
             && ScopeUserId in rules.columns && rules.columns[ScopeUserId] == OPTIONAL
             && CkScopeTeam !in rules.checks
             && CkScopeId in rules.checks && rules.checks[CkScopeId] == ThreeWay(Scope(db))
             && WithColumn(WithoutColumn(rules.rows, ScopeUserId), ScopeUserId, Null) == rules.rows
    ensures Upgraded(Downgraded(db)).tables == Renumber(db, Scope(db), db.nextOid + 1).tables
  {
    DownAndUpSettles(db);
    RenumberThreeWay(Scope(db), db.nextOid + 1);
    RenumberSettles(db, NEW_VALUES, CkScopeId, db.nextOid + 1);
  }

  lemma DownAndUpRest(db: Db)
    requires OwnType(db) && db.enums[Scope(db)] == NEW_VALUES
    requires RateLimitRules in db.tables && RejectionEvents in db.tables
    requires IndexesOk(db) && LiteralsOnlyIn(db, CkScopeId)
    requires UqUserScoped in db.indexes && db.indexes[UqUserScoped] == USER_INDEX
    ensures var d, r := Upgraded(Downgraded(db)), Renumber(db, Scope(db), db.nextOid + 1);
            d.types == r.types && d.enums == r.enums && d.indexes == r.indexes && d.nextOid == r.nextOid
  {
    DownAndUpReplaces(db);
    RenumberRest(db, NEW_VALUES, CkScopeId, db.nextOid + 1);
  }

  lemma DownAndUpIsRenumber(db: Db)
    requires Schema0034(db) && NoUserScope(db, RateLimitRules)
    ensures Upgraded(Downgraded(db)) == Renumber(db, Scope(db), db.nextOid + 1)
  {
    RulesRowsDownAndUp(db);
    DownAndUpTables(db);
    DownAndUpRest(db);
  }

  /** Where the downgrade works, upgrading again restores the catalog and the rows. */
  lemma UpgradeUndoesDowngrade(db: Db)
    requires Schema0034(db) && NoUserScope(db, RateLimitRules) && NoUserScope(db, RejectionEvents)
    ensures Run(db, DOWNGRADE_0034).Ok?
    ensures Run(Run(db, DOWNGRADE_0034).value, UPGRADE_0034) == Ok(Renumber(db, Scope(db), db.nextOid + 1))
  {
    DowngradeRunsIff(db);
    DowngradeGivesSchema0033(db);
    UpgradeRuns(Downgraded(db));
    DownAndUpIsRenumber(db);
  }
}
