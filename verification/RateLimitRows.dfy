/** Which rows the rate limit tables can hold: after 0026, and after 0033 and 0034 as well
    (backend/alembic/versions), for each column and each rule in turn. */
module RateLimitRows {
  import opened Options
  import opened Catalog
  import opened CatalogInvariant
  import opened RateLimitMigration
  import opened RateLimitOrigin

  predicate OneOf(v: Value, labels: seq<string>) {
    v.Text? && v.text in labels
  }

  predicate OptionalValue(v: Value) {
    v == Null || v.Opaque?
  }

  const RULE_KEYS: set<Column> := {
    Id, OrgId, ScopeType, ScopeTeamId, RequestsPerMin, TokensPerMin, OnLimit, MaxQueueWait, CreatedAt, UpdatedAt}

  /** A rule: the team and the two limits may be null, and nothing else. */
  predicate RuleFits(r: Row, scopes: seq<string>) {
    && RULE_KEYS <= r.Keys
    && r[Id].Opaque? && r[OrgId].Opaque? && OneOf(r[ScopeType], scopes) && OptionalValue(r[ScopeTeamId])
    && OptionalValue(r[RequestsPerMin]) && OptionalValue(r[TokensPerMin])
    && OneOf(r[OnLimit], ["reject", "queue_retry"]) && r[MaxQueueWait].Opaque?
    && r[CreatedAt].Opaque? && r[UpdatedAt].Opaque?
  }

  const EVENT_KEYS: set<Column> := {Id, OrgId, RuleId, ScopeType, ScopeTeamId, UserId, Outcome, OccurredAt}

  /** An event: the rule, the team and the user may be null, and nothing else. */
  predicate EventFits(r: Row, scopes: seq<string>) {
    && r.Keys == EVENT_KEYS
    && r[Id].Opaque? && r[OrgId].Opaque? && OneOf(r[ScopeType], scopes) && r[OccurredAt].Opaque?
    && OptionalValue(r[RuleId]) && OptionalValue(r[ScopeTeamId]) && OptionalValue(r[UserId])
    && OneOf(r[Outcome], ["reject", "queue_timeout"])
  }

  /** An org-wide default has no team, and a team's rule has one. */
  predicate ScopeMatchesTeam(r: Row)
    requires RULE_KEYS <= r.Keys
  {
    || (r[ScopeType] == Text("org_default_per_user") && r[ScopeTeamId] == Null)
    || (r[ScopeType] == Text("team") && r[ScopeTeamId] != Null)
  }

  /** One default per org, one rule per team. */
  predicate Apart(a: Row, b: Row)
    requires RULE_KEYS <= a.Keys && RULE_KEYS <= b.Keys
  {
    && !(a[ScopeType] == b[ScopeType] == Text("org_default_per_user") && a[OrgId] == b[OrgId])
    && !(a[ScopeTeamId] == b[ScopeTeamId] != Null)
  }

  function RuleColumnsOver(scope: nat, onLimit: nat): map<Column, ColumnDef> {
    map[Id := MANDATORY, OrgId := MANDATORY, ScopeType := ColumnDef(Enum(scope), false, None), ScopeTeamId := OPTIONAL,
        RequestsPerMin := OPTIONAL, TokensPerMin := OPTIONAL,
        OnLimit := ColumnDef(Enum(onLimit), false, Some(Text("reject"))),
        MaxQueueWait := ColumnDef(Basic(OpaqueKind), false, Some(Opaque(30))),
        CreatedAt := STAMPED, UpdatedAt := STAMPED]
  }

  function EventColumnsOver(scope: nat, outcome: nat): map<Column, ColumnDef> {
    map[Id := MANDATORY, OrgId := MANDATORY, RuleId := OPTIONAL, ScopeType := ColumnDef(Enum(scope), false, None),
        ScopeTeamId := OPTIONAL, UserId := OPTIONAL, Outcome := ColumnDef(Enum(outcome), false, None), OccurredAt := STAMPED]
  }

  // ---------------------------------------------------------------- the columns

  lemma RuleColumnsAre(db: Db)
    ensures Defs(WithTypes(db), RULE_COLUMNS) == RuleColumnsOver(db.nextOid, db.nextOid + 1)
  {
    var d, o := WithTypes(db), db.nextOid;
    assert TypeOf(d, NamedRef(ScopeTypeName)) == Ok(Enum(o)) && TypeOf(d, NamedRef(OnLimitName)) == Ok(Enum(o + 1));
    RuleDefsAre(d, o, o + 1);
  }

  lemma RuleDefsAre(d: Db, scope: nat, onLimit: nat)
    requires TypeOf(d, NamedRef(ScopeTypeName)) == Ok(Enum(scope)) && TypeOf(d, NamedRef(OnLimitName)) == Ok(Enum(onLimit))
    ensures Defs(d, RULE_COLUMNS) == RuleColumnsOver(scope, onLimit)
  {
    assert TypeOf(d, BasicRef(OpaqueKind)) == Ok(Basic(OpaqueKind));
  }

  lemma EventColumnsAre(db: Db)
    ensures Defs(WithTypes(db), EVENT_COLUMNS) == EventColumnsOver(db.nextOid, db.nextOid + 2)
  {
  }

  /** The two tables of 0026 have these columns, with the defaults 'reject' and 30. */
  lemma ColumnsOf0026(db: Db)
    requires Consistent(db) && NamesFree(db)
    ensures var d := Run(db, UPGRADE_0026); var o := db.nextOid;
            && d.Ok? && RateLimitRules in d.value.tables && RejectionEvents in d.value.tables
            && d.value.tables[RateLimitRules].columns == map[
                 Id := MANDATORY, OrgId := MANDATORY, ScopeType := ColumnDef(Enum(o), false, None), ScopeTeamId := OPTIONAL,
                 RequestsPerMin := OPTIONAL, TokensPerMin := OPTIONAL,
                 OnLimit := ColumnDef(Enum(o + 1), false, Some(Text("reject"))),
                 MaxQueueWait := ColumnDef(Basic(OpaqueKind), false, Some(Opaque(30))),
                 CreatedAt := STAMPED, UpdatedAt := STAMPED]
            && d.value.tables[RejectionEvents].columns == map[
                 Id := MANDATORY, OrgId := MANDATORY, RuleId := OPTIONAL, ScopeType := ColumnDef(Enum(o), false, None),
                 ScopeTeamId := OPTIONAL, UserId := OPTIONAL, Outcome := ColumnDef(Enum(o + 2), false, None),
                 OccurredAt := STAMPED]
  {
    Upgrade0026GivesSchema(db);
    RuleColumnsAre(db);
    EventColumnsAre(db);
  }

  lemma RuleFitsIff(enums: map<nat, seq<string>>, scope: nat, onLimit: nat, r: Row)
    requires scope in enums && onLimit in enums && enums[onLimit] == ["reject", "queue_retry"]
    ensures RowOk(enums, RuleColumnsOver(scope, onLimit), r) <==> r.Keys == RULE_KEYS && RuleFits(r, enums[scope])
  {
  }

  lemma EventFitsIff(enums: map<nat, seq<string>>, scope: nat, outcome: nat, r: Row)
    requires scope in enums && outcome in enums && enums[outcome] == ["reject", "queue_timeout"]
    ensures RowOk(enums, EventColumnsOver(scope, outcome), r) <==> EventFits(r, enums[scope])
  {
  }

  /** The same with one more column, which may be null. */
  lemma UserRuleFitsIff(enums: map<nat, seq<string>>, scope: nat, onLimit: nat, r: Row)
    requires scope in enums && onLimit in enums && enums[onLimit] == ["reject", "queue_retry"]
    ensures RowOk(enums, RuleColumnsOver(scope, onLimit)[ScopeUserId := OPTIONAL], r) <==>
              r.Keys == RULE_KEYS + {ScopeUserId} && RuleFits(r, enums[scope]) && OptionalValue(r[ScopeUserId])
  {
    var columns := RuleColumnsOver(scope, onLimit);
    var was := r - {ScopeUserId};
    RuleFitsIff(enums, scope, onLimit, was);
    if ScopeUserId in r {
      assert r.Keys == was.Keys + {ScopeUserId};
      assert ScopeUserId !in RULE_KEYS && columns.Keys == RULE_KEYS;
      assert RowOk(enums, columns[ScopeUserId := OPTIONAL], r) <==> RowOk(enums, columns, was) && OptionalValue(r[ScopeUserId]);
      assert was.Keys == RULE_KEYS <==> r.Keys == RULE_KEYS + {ScopeUserId};
      if r.Keys == RULE_KEYS + {ScopeUserId} {
        assert RuleFits(r, enums[scope]) <==> RuleFits(was, enums[scope]);
      }
    }
  }

  // ---------------------------------------------------------------- the rules

  lemma TwoWayIff(o: nat, r: Row)
    requires RULE_KEYS <= r.Keys && r[ScopeType].Text?
    ensures Eval(TwoWay(o), r) != No <==> ScopeMatchesTeam(r)
  {
    var e := TwoWay(o);
    assert Eval(e.left, r) == Yes <==> r[ScopeType] == Text("org_default_per_user") && r[ScopeTeamId] == Null;
    assert Eval(e.right, r) == Yes <==> r[ScopeType] == Text("team") && r[ScopeTeamId] != Null;
    assert Eval(e.left, r) != Unknown && Eval(e.right, r) != Unknown;
  }

  lemma OrgClashIff(o: nat, a: Row, b: Row)
    requires RULE_KEYS <= a.Keys && RULE_KEYS <= b.Keys && a[OrgId].Opaque? && b[OrgId].Opaque?
    ensures Clash(OrgDefaultIndex(o), a, b) <==> a[ScopeType] == b[ScopeType] == Text("org_default_per_user") && a[OrgId] == b[OrgId]
  {
    var ix := OrgDefaultIndex(o);
    assert OrgId in ix.columns && forall c <- ix.columns :: c == OrgId;
    assert Eval(ix.filter, a) == Yes <==> a[ScopeType] == Text("org_default_per_user");
    assert Eval(ix.filter, b) == Yes <==> b[ScopeType] == Text("org_default_per_user");
  }

  lemma TeamClashIff(a: Row, b: Row)
    requires RULE_KEYS <= a.Keys && RULE_KEYS <= b.Keys
    ensures Clash(TEAM_INDEX, a, b) <==> a[ScopeTeamId] == b[ScopeTeamId] != Null
  {
    assert TEAM_INDEX.columns == [ScopeTeamId];
  }

  // ---------------------------------------------------------------- after 0026

  predicate RuleOk(r: Row) {
    r.Keys == RULE_KEYS && RuleFits(r, ["org_default_per_user", "team"]) && ScopeMatchesTeam(r)
  }

  /** What the rules table can hold after 0026. */
  ghost predicate RulesOk(rows: map<RowId, Row>) {
    && (forall i :: i in rows ==> RuleOk(rows[i]))
    && (forall i, j :: i in rows && j in rows && i != j ==> Apart(rows[i], rows[j]))
  }

  /** The rules table as 0026 creates it. */
  ghost predicate RulesTable(d: Db, o: nat) {
    && RateLimitRules in d.tables
    && d.tables[RateLimitRules] == Table(RuleColumnsOver(o, o + 1), map[], map[CkScopeTeam := TwoWay(o)])
    && o in d.enums && d.enums[o] == ["org_default_per_user", "team"]
    && o + 1 in d.enums && d.enums[o + 1] == ["reject", "queue_retry"]
    && UqOrgDefault in d.indexes && d.indexes[UqOrgDefault] == OrgDefaultIndex(o)
    && UqTeamScoped in d.indexes && d.indexes[UqTeamScoped] == TEAM_INDEX
    && (forall k :: k in d.indexes && d.indexes[k].table == RateLimitRules ==> k == UqOrgDefault || k == UqTeamScoped)
  }

  ghost predicate EventsTable(d: Db, o: nat, outcome: nat) {
    && RejectionEvents in d.tables
    && d.tables[RejectionEvents] == Table(EventColumnsOver(o, outcome), map[], map[])
    && o in d.enums && outcome in d.enums && d.enums[outcome] == ["reject", "queue_timeout"]
    && (forall k :: k in d.indexes && d.indexes[k].table == RejectionEvents ==> !d.indexes[k].unique)
  }

  lemma NoIndexOnNewTables(db: Db)
    requires Consistent(db) && RateLimitRules !in db.tables && RejectionEvents !in db.tables
    ensures forall k :: k in db.indexes ==> db.indexes[k].table != RateLimitRules && db.indexes[k].table != RejectionEvents
  {
    forall k | k in db.indexes ensures db.indexes[k].table in db.tables {
      assert IndexOk(db.tables, db.indexes[k]);
    }
  }

  lemma OriginIs(db: Db)
    requires Consistent(db) && NamesFree(db)
    ensures RulesTable(Origin(db), db.nextOid) && EventsTable(Origin(db), db.nextOid, db.nextOid + 2)
  {
    NoIndexOnNewTables(db);
    RuleColumnsAre(db);
    EventColumnsAre(db);
    CreatedRulesAre(db, RuleColumnsOver(db.nextOid, db.nextOid + 1), EventColumnsOver(db.nextOid, db.nextOid + 2));
    CreatedEventsAre(db, RuleColumnsOver(db.nextOid, db.nextOid + 1), EventColumnsOver(db.nextOid, db.nextOid + 2));
  }

  lemma CreatedRulesAre(db: Db, rules: map<Column, ColumnDef>, events: map<Column, ColumnDef>)
    requires forall k :: k in db.indexes ==> db.indexes[k].table != RateLimitRules
    requires rules == RuleColumnsOver(db.nextOid, db.nextOid + 1)
    ensures RulesTable(Created(db, rules, events), db.nextOid)
  {
  }

  lemma CreatedEventsAre(db: Db, rules: map<Column, ColumnDef>, events: map<Column, ColumnDef>)
    requires forall k :: k in db.indexes ==> db.indexes[k].table != RejectionEvents
    requires events == EventColumnsOver(db.nextOid, db.nextOid + 2)
    ensures EventsTable(Created(db, rules, events), db.nextOid, db.nextOid + 2)
  {
  }

  lemma RuleAdmittedIff(d: Db, o: nat, r: Row)
    requires RulesTable(d, o)
    ensures AdmitsRow(d, RateLimitRules, r) <==> RuleOk(r)
  {
    RuleFitsIff(d.enums, o, o + 1, r);
    assert d.tables[RateLimitRules].checks.Keys == {CkScopeTeam};
    if r.Keys == RULE_KEYS && r[ScopeType].Text? {
      TwoWayIff(o, r);
    }
  }

  lemma ApartIff(d: Db, o: nat, a: Row, b: Row)
    requires RulesTable(d, o) && RuleOk(a) && RuleOk(b)
    ensures AdmitsBoth(d, RateLimitRules, a, b) <==> Apart(a, b)
  {
    OrgClashIff(o, a, b);
    TeamClashIff(a, b);
  }

  lemma RulesTableAdmitsIff(d: Db, o: nat, rows: map<RowId, Row>)
    requires RulesTable(d, o)
    ensures Admits(d, RateLimitRules, rows) <==> RulesOk(rows)
  {
    AdmitsPointwise(d, RateLimitRules, rows);
    forall i | i in rows ensures AdmitsRow(d, RateLimitRules, rows[i]) <==> RuleOk(rows[i]) {
      RuleAdmittedIff(d, o, rows[i]);
    }
    forall i, j | i in rows && j in rows && RuleOk(rows[i]) && RuleOk(rows[j])
      ensures AdmitsBoth(d, RateLimitRules, rows[i], rows[j]) <==> Apart(rows[i], rows[j])
    {
      ApartIff(d, o, rows[i], rows[j]);
    }
  }

  /** After 0026 the rules table can hold exactly the rows that fit its columns, whose scope matches
      their team, with one default per org and one rule per team. */
  lemma RulesAfter0026Iff(db: Db, rows: map<RowId, Row>)
    requires Consistent(db) && NamesFree(db)
    ensures var d := Run(db, UPGRADE_0026);
            d.Ok? && RateLimitRules in d.value.tables && (Admits(d.value, RateLimitRules, rows) <==> RulesOk(rows))
  {
    Upgrade0026GivesSchema(db);
    OriginIs(db);
    RulesTableAdmitsIff(Origin(db), db.nextOid, rows);
  }

  lemma EventsTableAdmitsIff(d: Db, o: nat, outcome: nat, rows: map<RowId, Row>)
    requires EventsTable(d, o, outcome)
    ensures Admits(d, RejectionEvents, rows) <==> forall i :: i in rows ==> EventFits(rows[i], d.enums[o])
  {
    forall i | i in rows
      ensures RowOk(d.enums, d.tables[RejectionEvents].columns, rows[i]) <==> EventFits(rows[i], d.enums[o])
    {
      EventFitsIff(d.enums, o, outcome, rows[i]);
    }
  }

  /** And the events table exactly the rows that fit its columns. */
  lemma EventsAfter0026Iff(db: Db, rows: map<RowId, Row>)
    requires Consistent(db) && NamesFree(db)
    ensures var d := Run(db, UPGRADE_0026);
            d.Ok? && RejectionEvents in d.value.tables &&
            (Admits(d.value, RejectionEvents, rows) <==>
               forall i :: i in rows ==> EventFits(rows[i], ["org_default_per_user", "team"]))
  {
    Upgrade0026GivesSchema(db);
    OriginIs(db);
    EventsTableAdmitsIff(Origin(db), db.nextOid, db.nextOid + 2, rows);
  }

  /** A rule with a limit on requests alone, and the default for everything that has one. */
  function Rule(org: int, scope: string, team: Value): Row {
    map[Id := Opaque(0), OrgId := Opaque(org), ScopeType := Text(scope), ScopeTeamId := team,
        RequestsPerMin := Opaque(1), TokensPerMin := Null, OnLimit := Text("reject"), MaxQueueWait := Opaque(30),
        CreatedAt := Opaque(0), UpdatedAt := Opaque(0)]
  }

  lemma RuleIsOk(org: int, scope: string, team: Value)
    requires (scope == "org_default_per_user" && team == Null) || (scope == "team" && team.Opaque?)
    ensures RuleOk(Rule(org, scope, team))
  {
    assert ["org_default_per_user", "team"][0] == "org_default_per_user" && ["org_default_per_user", "team"][1] == "team";
    assert ["reject", "queue_retry"][0] == "reject";
  }

  lemma TwoRulesOk(a: Row, b: Row)
    requires RuleOk(a) && RuleOk(b) && Apart(a, b) && Apart(b, a)
    ensures RulesOk(map[0 := a, 1 := b])
  {
    var rows: map<RowId, Row> := map[0 := a, 1 := b];
    assert forall i :: i in rows ==> rows[i] == a || rows[i] == b;
  }

  lemma RulesOfBothScopes(org: int, team: int)
    ensures RulesOk(map[0 := Rule(org, "org_default_per_user", Null), 1 := Rule(org, "team", Opaque(team))])
  {
    var a, b := Rule(org, "org_default_per_user", Null), Rule(org, "team", Opaque(team));
    RuleIsOk(org, "org_default_per_user", Null);
    RuleIsOk(org, "team", Opaque(team));
    assert Apart(a, b) && Apart(b, a) by {
      assert a[ScopeTeamId] == Null && b[ScopeType] == Text("team");
      assert "team"[0] == 't' && "org_default_per_user"[0] == 'o';
    }
    TwoRulesOk(a, b);
  }

  /** So every org can have a default without a team, next to a team's rule. */
  lemma EachScopeHasARule(db: Db, org: int, team: int)
    requires Consistent(db) && NamesFree(db)
    ensures var d := Run(db, UPGRADE_0026);
            && d.Ok? && RateLimitRules in d.value.tables
            && Admits(d.value, RateLimitRules,
                      map[0 := Rule(org, "org_default_per_user", Null), 1 := Rule(org, "team", Opaque(team))])
  {
    RulesOfBothScopes(org, team);
    RulesAfter0026Iff(db, map[0 := Rule(org, "org_default_per_user", Null), 1 := Rule(org, "team", Opaque(team))]);
  }

  // ---------------------------------------------------------------- after 0033 and 0034

  /** An org-wide default has neither team nor user, a team's rule a team, a user's rule a user. */
  predicate ScopeMatchesId(r: Row)
    requires RULE_KEYS + {ScopeUserId} <= r.Keys
  {
    || (r[ScopeType] == Text("org_default_per_user") && r[ScopeTeamId] == Null && r[ScopeUserId] == Null)
    || (r[ScopeType] == Text("team") && r[ScopeTeamId] != Null && r[ScopeUserId] == Null)
    || (r[ScopeType] == Text("user") && r[ScopeTeamId] == Null && r[ScopeUserId] != Null)
  }

  predicate UserRuleOk(r: Row) {
    && r.Keys == RULE_KEYS + {ScopeUserId}
    && RuleFits(r, ["org_default_per_user", "team", "user"]) && OptionalValue(r[ScopeUserId])
    && ScopeMatchesId(r)
    && (r[RequestsPerMin] != Null || r[TokensPerMin] != Null)
  }

  /** What the rules table can hold after 0034: one rule per user as well, and a limit in each. */
  ghost predicate UserRulesOk(rows: map<RowId, Row>) {
    && (forall i :: i in rows ==> UserRuleOk(rows[i]))
    && (forall i, j :: i in rows && j in rows && i != j ==>
          Apart(rows[i], rows[j]) && !(rows[i][ScopeUserId] == rows[j][ScopeUserId] != Null))
  }

  /** The rules table as 0034 leaves it. */
  ghost predicate UserRulesTable(d: Db, o: nat, onLimit: nat) {
    && RateLimitRules in d.tables
    && d.tables[RateLimitRules].columns == RuleColumnsOver(o, onLimit)[ScopeUserId := OPTIONAL]
    && d.tables[RateLimitRules].checks == map[CkScopeId := ThreeWay(o), CkAtLeastOneLimit := LIMIT_EXPR]
    && o in d.enums && d.enums[o] == ["org_default_per_user", "team", "user"]
    && onLimit in d.enums && d.enums[onLimit] == ["reject", "queue_retry"]
    && UqOrgDefault in d.indexes && d.indexes[UqOrgDefault] == OrgDefaultIndex(o)
    && UqTeamScoped in d.indexes && d.indexes[UqTeamScoped] == TEAM_INDEX
    && UqUserScoped in d.indexes && d.indexes[UqUserScoped] == USER_INDEX
    && (forall k :: k in d.indexes && d.indexes[k].table == RateLimitRules ==>
          k == UqOrgDefault || k == UqTeamScoped || k == UqUserScoped)
  }

  lemma LimitCheckedTable(d: Db, o: nat)
    requires RulesTable(d, o)
    ensures var e := WithLimitCheck(d);
            && e.tables[RateLimitRules].columns == RuleColumnsOver(o, o + 1)
            && e.tables[RateLimitRules].checks == map[CkScopeTeam := TwoWay(o), CkAtLeastOneLimit := LIMIT_EXPR]
            && e.enums == d.enums && e.indexes == d.indexes && e.types == d.types && e.nextOid == d.nextOid
            && (RejectionEvents in d.tables ==> RejectionEvents in e.tables && e.tables[RejectionEvents] == d.tables[RejectionEvents])
  {
  }

  lemma RetypedRules(t: Table, o: nat, onLimit: nat, n: nat)
    requires t.columns == RuleColumnsOver(o, onLimit)
    ensures Retyped(t, n).columns == RuleColumnsOver(n, onLimit)
  {
  }

  lemma RetypedEvents(t: Table, o: nat, outcome: nat, n: nat)
    requires t == Table(EventColumnsOver(o, outcome), map[], map[])
    ensures Retyped(t, n) == Table(EventColumnsOver(n, outcome), map[], map[])
  {
  }

  lemma UpgradedRulesTable(d: Db, o: nat, n: nat)
    requires RulesTable(d, o) && RejectionEvents in d.tables && Scope(d) == o && d.nextOid == n > o + 1
    ensures UserRulesTable(Upgraded(WithLimitCheck(d)), n, o + 1)
  {
    LimitCheckedTable(d, o);
    var e := WithLimitCheck(d);
    RetypedRules(e.tables[RateLimitRules], o, o + 1, n);
    UpgradedRulesAre(e, o, o + 1, n);
  }

  lemma UpgradedRulesAre(e: Db, o: nat, onLimit: nat, n: nat)
    requires RateLimitRules in e.tables && RejectionEvents in e.tables && Scope(e) == o != onLimit && e.nextOid == n > onLimit
    requires Retyped(e.tables[RateLimitRules], n).columns == RuleColumnsOver(n, onLimit)
    requires e.tables[RateLimitRules].checks == map[CkScopeTeam := TwoWay(o), CkAtLeastOneLimit := LIMIT_EXPR]
    requires onLimit in e.enums && e.enums[onLimit] == ["reject", "queue_retry"]
    requires forall k :: k in e.indexes && e.indexes[k].table == RateLimitRules ==> k == UqOrgDefault || k == UqTeamScoped
    ensures UserRulesTable(Upgraded(e), n, onLimit)
  {
    ReplacedCheck(e.tables[RateLimitRules].checks, o, n);
  }

  lemma ReplacedCheck(checks: map<CheckName, Expr>, o: nat, n: nat)
    requires checks == map[CkScopeTeam := TwoWay(o), CkAtLeastOneLimit := LIMIT_EXPR]
    ensures (checks - {CkScopeTeam})[CkScopeId := ThreeWay(n)] == map[CkScopeId := ThreeWay(n), CkAtLeastOneLimit := LIMIT_EXPR]
  {
  }

  lemma UpgradedEventsTable(d: Db, o: nat, outcome: nat, n: nat)
    requires EventsTable(d, o, outcome) && RateLimitRules in d.tables && Scope(d) == o != outcome && d.nextOid == n > outcome
    ensures EventsTable(Upgraded(WithLimitCheck(d)), n, outcome)
  {
    RetypedEvents(d.tables[RejectionEvents], o, outcome, n);
  }

  lemma ThreeWayIff(o: nat, r: Row)
    requires RULE_KEYS + {ScopeUserId} <= r.Keys && r[ScopeType].Text?
    ensures Eval(ThreeWay(o), r) != No <==> ScopeMatchesId(r)
  {
    var e := ThreeWay(o);
    ScopePartIff(e.left.left, r, o, ORG_DEFAULT);
    ScopePartIff(e.left.right, r, o, TEAM);
    ScopePartIff(e.right, r, o, USER);
    assert Eval(e.left, r) == Disj(Eval(e.left.left, r), Eval(e.left.right, r));
  }

  lemma ScopePartIff(e: Expr, r: Row, o: nat, scope: string)
    requires RULE_KEYS + {ScopeUserId} <= r.Keys && r[ScopeType].Text?
    requires e.EAnd? && e.left.EAnd? && e.left.left == EEquals(ScopeType, Enum(o), scope)
    requires e.left.right == EIsNull(ScopeTeamId) || e.left.right == EIsNotNull(ScopeTeamId)
    requires e.right == EIsNull(ScopeUserId) || e.right == EIsNotNull(ScopeUserId)
    ensures Eval(e, r) == TruthOf(r[ScopeType] == Text(scope) &&
                                  (r[ScopeTeamId] == Null <==> e.left.right.EIsNull?) &&
                                  (r[ScopeUserId] == Null <==> e.right.EIsNull?))
  {
    assert Eval(e.left, r) == Conj(Eval(e.left.left, r), Eval(e.left.right, r));
    assert Eval(e.left.left, r) == TruthOf(r[ScopeType] == Text(scope));
  }

  lemma LimitIff(r: Row)
    requires RULE_KEYS <= r.Keys
    ensures Eval(LIMIT_EXPR, r) != No <==> r[RequestsPerMin] != Null || r[TokensPerMin] != Null
  {
  }

  lemma UserClashIff(a: Row, b: Row)
    requires ScopeUserId in a && ScopeUserId in b
    ensures Clash(USER_INDEX, a, b) <==> a[ScopeUserId] == b[ScopeUserId] != Null
  {
    assert USER_INDEX.columns == [ScopeUserId];
  }

  lemma UserRuleAdmittedIff(d: Db, o: nat, onLimit: nat, r: Row)
    requires UserRulesTable(d, o, onLimit)
    ensures AdmitsRow(d, RateLimitRules, r) <==> UserRuleOk(r)
  {
    UserRuleFitsIff(d.enums, o, onLimit, r);
    assert d.tables[RateLimitRules].checks.Keys == {CkScopeId, CkAtLeastOneLimit};
    if r.Keys == RULE_KEYS + {ScopeUserId} && r[ScopeType].Text? {
      ThreeWayIff(o, r);
      LimitIff(r);
    }
  }

  lemma UserRulesApartIff(d: Db, o: nat, onLimit: nat, a: Row, b: Row)
    requires UserRulesTable(d, o, onLimit) && UserRuleOk(a) && UserRuleOk(b)
    ensures AdmitsBoth(d, RateLimitRules, a, b) <==> Apart(a, b) && !(a[ScopeUserId] == b[ScopeUserId] != Null)
  {
    OrgClashIff(o, a, b);
    TeamClashIff(a, b);
    UserClashIff(a, b);
  }

  lemma UserRulesTableAdmitsIff(d: Db, o: nat, onLimit: nat, rows: map<RowId, Row>)
    requires UserRulesTable(d, o, onLimit)
    ensures Admits(d, RateLimitRules, rows) <==> UserRulesOk(rows)
  {
    AdmitsPointwise(d, RateLimitRules, rows);
    forall i | i in rows ensures AdmitsRow(d, RateLimitRules, rows[i]) <==> UserRuleOk(rows[i]) {
      UserRuleAdmittedIff(d, o, onLimit, rows[i]);
    }
    forall i, j | i in rows && j in rows && UserRuleOk(rows[i]) && UserRuleOk(rows[j])
      ensures AdmitsBoth(d, RateLimitRules, rows[i], rows[j]) <==>
                Apart(rows[i], rows[j]) && !(rows[i][ScopeUserId] == rows[j][ScopeUserId] != Null)
    {
      UserRulesApartIff(d, o, onLimit, rows[i], rows[j]);
    }
  }

  lemma OriginTypes(db: Db)
    ensures Scope(Origin(db)) == db.nextOid && Origin(db).nextOid == db.nextOid + 3
  {
  }

  lemma UpgradedAdmits(d: Db, o: nat, rows: map<RowId, Row>)
    requires RulesTable(d, o) && EventsTable(d, o, o + 2) && Scope(d) == o && d.nextOid == o + 3
    ensures var e := Upgraded(WithLimitCheck(d));
            && RateLimitRules in e.tables && (Admits(e, RateLimitRules, rows) <==> UserRulesOk(rows))
            && RejectionEvents in e.tables
            && (Admits(e, RejectionEvents, rows) <==>
                  forall i :: i in rows ==> EventFits(rows[i], ["org_default_per_user", "team", "user"]))
  {
    UpgradedRulesTable(d, o, o + 3);
    UpgradedEventsTable(d, o, o + 2, o + 3);
    NewLabels(WithLimitCheck(d), o + 3);
    var e := Upgraded(WithLimitCheck(d));
    UserRulesTableAdmitsIff(e, o + 3, o + 1, rows);
    EventsTableAdmitsIff(e, o + 3, o + 2, rows);
  }

  lemma UpgradedOriginAdmits(db: Db, rows: map<RowId, Row>)
    requires Consistent(db) && NamesFree(db)
    ensures var e := Upgraded(WithLimitCheck(Origin(db)));
            && RateLimitRules in e.tables && (Admits(e, RateLimitRules, rows) <==> UserRulesOk(rows))
            && RejectionEvents in e.tables
            && (Admits(e, RejectionEvents, rows) <==>
                  forall i :: i in rows ==> EventFits(rows[i], ["org_default_per_user", "team", "user"]))
  {
    OriginIs(db);
    OriginTypes(db);
    UpgradedAdmits(Origin(db), db.nextOid, rows);
  }

  /** After all three the rules table can hold exactly the rows that fit its columns, have a limit and
      have a scope that matches team and user, with one default per org and one rule per team and per
      user; the events table takes the new scope as well. */
  lemma RulesAfter0034Iff(db: Db, rows: map<RowId, Row>)
    requires Consistent(db) && NamesFree(db)
    ensures var d := Run(db, ALL_THREE);
            && d.Ok? && RateLimitRules in d.value.tables && RejectionEvents in d.value.tables
            && (Admits(d.value, RateLimitRules, rows) <==> UserRulesOk(rows))
            && (Admits(d.value, RejectionEvents, rows) <==>
                  forall i :: i in rows ==> EventFits(rows[i], ["org_default_per_user", "team", "user"]))
  {
    AllThreeGive(db);
    UpgradedOriginAdmits(db, rows);
  }

  lemma NewLabels(e: Db, n: nat)
    requires RateLimitRules in e.tables && RejectionEvents in e.tables && e.nextOid == n
    ensures n in Upgraded(e).enums && Upgraded(e).enums[n] == ["org_default_per_user", "team", "user"]
  {
  }

  lemma ScopedRuleIsOk(org: int, scope: string, team: Value, user: Value)
    requires (scope == "org_default_per_user" && team == Null && user == Null) ||
             (scope == "team" && team.Opaque? && user == Null) || (scope == "user" && team == Null && user.Opaque?)
    ensures UserRuleOk(Rule(org, scope, team)[ScopeUserId := user])
  {
    var scopes := ["org_default_per_user", "team", "user"];
    assert scopes[0] == "org_default_per_user" && scopes[1] == "team" && scopes[2] == "user";
    assert ["reject", "queue_retry"][0] == "reject";
    var r := Rule(org, scope, team)[ScopeUserId := user];
    assert r.Keys == RULE_KEYS + {ScopeUserId};
    assert RuleFits(r, scopes);
  }

  lemma ThreeRulesOk(a: Row, b: Row, c: Row)
    requires UserRuleOk(a) && UserRuleOk(b) && UserRuleOk(c)
    requires a[ScopeType] == Text("org_default_per_user") && b[ScopeType] == Text("team") && c[ScopeType] == Text("user")
    ensures UserRulesOk(map[0 := a, 1 := b, 2 := c])
  {
    var rows: map<RowId, Row> := map[0 := a, 1 := b, 2 := c];
    assert forall i :: i in rows ==> i == 0 || i == 1 || i == 2;
    assert rows[0] == a && rows[1] == b && rows[2] == c;
    assert "org_default_per_user"[0] == 'o' && "team"[0] == 't' && "user"[0] == 'u';
  }

  lemma RulesOfAllScopes(org: int, team: int, user: int)
    ensures UserRulesOk(map[0 := Rule(org, "org_default_per_user", Null)[ScopeUserId := Null],
                            1 := Rule(org, "team", Opaque(team))[ScopeUserId := Null],
                            2 := Rule(org, "user", Null)[ScopeUserId := Opaque(user)]])
  {
    ScopedRuleIsOk(org, "org_default_per_user", Null, Null);
    ScopedRuleIsOk(org, "team", Opaque(team), Null);
    ScopedRuleIsOk(org, "user", Null, Opaque(user));
    ThreeRulesOk(Rule(org, "org_default_per_user", Null)[ScopeUserId := Null],
                 Rule(org, "team", Opaque(team))[ScopeUserId := Null],
                 Rule(org, "user", Null)[ScopeUserId := Opaque(user)]);
  }

  /** After all three an org can have a rule of each of the three scopes side by side. */
  lemma EachOfThreeScopesHasARule(db: Db, org: int, team: int, user: int)
    requires Consistent(db) && NamesFree(db)
    ensures var d := Run(db, ALL_THREE);
            && d.Ok? && RateLimitRules in d.value.tables
            && Admits(d.value, RateLimitRules,
                      map[0 := Rule(org, "org_default_per_user", Null)[ScopeUserId := Null],
                          1 := Rule(org, "team", Opaque(team))[ScopeUserId := Null],
                          2 := Rule(org, "user", Null)[ScopeUserId := Opaque(user)]])
  {
    RulesOfAllScopes(org, team, user);
    RulesAfter0034Iff(db, map[0 := Rule(org, "org_default_per_user", Null)[ScopeUserId := Null],
                              1 := Rule(org, "team", Opaque(team))[ScopeUserId := Null],
                              2 := Rule(org, "user", Null)[ScopeUserId := Opaque(user)]]);
  }
}
