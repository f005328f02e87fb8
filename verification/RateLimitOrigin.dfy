/** Migrations 0026 and 0033 really leave the schema that module RateLimitMigration starts from. */
module RateLimitOrigin {
  import opened Options
  import opened Catalog
  import opened CatalogInvariant
  import opened RateLimitMigration

  /** None of the names that 0026 and 0034 introduce is taken. */
  ghost predicate NamesFree(db: Db) {
    && (forall n :: n in db.types ==>
          n !in {ScopeTypeName, ScopeTypeOldName, ScopeTypeNewName, OnLimitName, RejectionOutcomeName})
    && RateLimitRules !in db.tables && RejectionEvents !in db.tables
    && (forall k :: k in db.indexes ==>
          k !in {UqOrgDefault, UqTeamScoped, UqUserScoped, IxEventsByOrg, IxEventsByRule})
  }

  const CREATE_TYPES := UPGRADE_0026[..3]

  function CreateRules(specs: map<Column, ColumnSpec>): seq<Statement> {
    [CreateTable(RateLimitRules, specs), CreateCheck(RateLimitRules, CkScopeTeam, TWO_WAY),
     CREATE_ORG_DEFAULT, CREATE_TEAM_SCOPED]
  }

  function CreateEvents(specs: map<Column, ColumnSpec>): seq<Statement> {
    [CreateTable(RejectionEvents, specs),
     CreateIndex(IxEventsByOrg, RejectionEvents, [OrgId, OccurredAt], false, Always),
     CreateIndex(IxEventsByRule, RejectionEvents, [RuleId, OccurredAt], false, Always)]
  }

  function WithTypes(db: Db): Db {
    var o := db.nextOid;
    db.(types := db.types[ScopeTypeName := o][OnLimitName := o + 1][RejectionOutcomeName := o + 2],
        enums := db.enums[o := OLD_VALUES][o + 1 := ["reject", "queue_retry"]][o + 2 := ["reject", "queue_timeout"]],
        nextOid := o + 3)
  }

  function WithRules(db: Db, columns: map<Column, ColumnDef>, o: nat): Db {
    db.(tables := db.tables[RateLimitRules := Table(columns, map[], map[CkScopeTeam := TwoWay(o)])],
        indexes := db.indexes[UqOrgDefault := OrgDefaultIndex(o)][UqTeamScoped := TEAM_INDEX])
  }

  const BY_ORG := Index(RejectionEvents, [OrgId, OccurredAt], false, false, EAlways)
  const BY_RULE := Index(RejectionEvents, [RuleId, OccurredAt], false, false, EAlways)

  function WithEvents(db: Db, columns: map<Column, ColumnDef>): Db {
    db.(tables := db.tables[RejectionEvents := Table(columns, map[], map[])],
        indexes := db.indexes[IxEventsByOrg := BY_ORG][IxEventsByRule := BY_RULE])
  }

  lemma TypesRun(db: Db)
    requires ScopeTypeName !in db.types && OnLimitName !in db.types && RejectionOutcomeName !in db.types
    ensures Run(db, CREATE_TYPES) == Ok(WithTypes(db))
  {
    var o := db.nextOid;
    var d1 := WithType(db, ScopeTypeName, OLD_VALUES);
    var d2 := WithType(d1, OnLimitName, ["reject", "queue_retry"]);
    TypeRuns(db, ScopeTypeName, OLD_VALUES);
    TypeRuns(d1, OnLimitName, ["reject", "queue_retry"]);
    TypeRuns(d2, RejectionOutcomeName, ["reject", "queue_timeout"]);
    RunStep(db, CREATE_TYPES, 0, Ok(d1));
    RunStep(d1, CREATE_TYPES, 1, Ok(d2));
    RunStep(d2, CREATE_TYPES, 2, Ok(WithTypes(db)));
  }

  function WithType(db: Db, n: TypeName, labels: seq<string>): Db {
    db.(types := db.types[n := db.nextOid], enums := db.enums[db.nextOid := labels], nextOid := db.nextOid + 1)
  }

  lemma TypeRuns(db: Db, n: TypeName, labels: seq<string>)
    requires n !in db.types
    ensures Perform(db, CreateEnum(n, labels, true)) == Ok(WithType(db, n, labels))
  {
  }

  lemma BindTwoWay(columns: map<Column, ColumnDef>, enums: map<nat, seq<string>>, o: nat)
    requires ScopeType in columns && columns[ScopeType].ctype == Enum(o) && ScopeTeamId in columns
    requires o in enums && enums[o] == OLD_VALUES
    ensures Bind(columns, enums, TWO_WAY) == Ok(TwoWay(o))
  {
    assert ORG_DEFAULT == OLD_VALUES[0] && TEAM == OLD_VALUES[1];
    assert Bind(columns, enums, TWO_WAY.left) == Ok(TwoWay(o).left);
    assert Bind(columns, enums, TWO_WAY.right) == Ok(TwoWay(o).right);
  }

  /** The columns of one of the two tables: `scope_type` alone has type `o`. */
  ghost predicate ScopeColumns(columns: map<Column, ColumnDef>, o: nat) {
    && ScopeType in columns && columns[ScopeType] == ColumnDef(Enum(o), false, None)
    && forall c :: c in columns ==> (columns[c].ctype == Enum(o) <==> c == ScopeType)
  }

  ghost predicate RuleColumnsOk(columns: map<Column, ColumnDef>, o: nat) {
    && ScopeColumns(columns, o)
    && OrgId in columns && ScopeTeamId in columns && ScopeUserId !in columns
    && RequestsPerMin in columns && TokensPerMin in columns
  }

  /** The columns that 0026 gives a table: scope_type is the only one of the scope type. */
  ghost predicate ScopeSpecs(specs: map<Column, ColumnSpec>, other: TypeName) {
    && ScopeType in specs && specs[ScopeType] == ColumnSpec(NamedRef(ScopeTypeName), false, None)
    && forall c :: c in specs && c != ScopeType ==> specs[c].ctype.BasicRef? || specs[c].ctype == NamedRef(other)
  }

  lemma ScopeSpecsGiveColumns(d: Db, specs: map<Column, ColumnSpec>, other: TypeName, o: nat)
    requires ScopeSpecs(specs, other)
    requires ScopeTypeName in d.types && d.types[ScopeTypeName] == o && other in d.types && d.types[other] != o
    ensures ScopeColumns(Defs(d, specs), o) && Defs(d, specs).Keys == specs.Keys
    ensures forall c :: c in specs ==> TypeOf(d, specs[c].ctype).Ok?
  {
  }

  lemma RuleSpecs()
    ensures ScopeSpecs(RULE_COLUMNS, OnLimitName)
  {
  }

  lemma RuleKeys()
    ensures {OrgId, ScopeTeamId, RequestsPerMin, TokensPerMin} <= RULE_COLUMNS.Keys && ScopeUserId !in RULE_COLUMNS
  {
  }

  lemma RuleColumns(d: Db, o: nat)
    requires ScopeTypeName in d.types && d.types[ScopeTypeName] == o
    requires OnLimitName in d.types && d.types[OnLimitName] != o
    ensures SpecsFitRules(d, RULE_COLUMNS, o)
  {
    RuleSpecs();
    RuleKeys();
    RulesFit(d, RULE_COLUMNS, o);
  }

  ghost predicate SpecsFitRules(d: Db, specs: map<Column, ColumnSpec>, o: nat) {
    RuleColumnsOk(Defs(d, specs), o) && forall c :: c in specs ==> TypeOf(d, specs[c].ctype).Ok?
  }

  ghost predicate SpecsFitEvents(d: Db, specs: map<Column, ColumnSpec>, o: nat) {
    && ScopeColumns(Defs(d, specs), o) && {OrgId, RuleId, OccurredAt} <= Defs(d, specs).Keys
    && forall c :: c in specs ==> TypeOf(d, specs[c].ctype).Ok?
  }

  lemma RulesFit(d: Db, specs: map<Column, ColumnSpec>, o: nat)
    requires ScopeSpecs(specs, OnLimitName)
    requires {OrgId, ScopeTeamId, RequestsPerMin, TokensPerMin} <= specs.Keys && ScopeUserId !in specs
    requires ScopeTypeName in d.types && d.types[ScopeTypeName] == o
    requires OnLimitName in d.types && d.types[OnLimitName] != o
    ensures SpecsFitRules(d, specs, o)
  {
    ScopeSpecsGiveColumns(d, specs, OnLimitName, o);
  }

  lemma EventSpecs()
    ensures ScopeSpecs(EVENT_COLUMNS, RejectionOutcomeName)
  {
  }

  lemma EventKeys()
    ensures {OrgId, RuleId, OccurredAt} <= EVENT_COLUMNS.Keys
  {
  }

  lemma EventsFit(d: Db, specs: map<Column, ColumnSpec>, o: nat)
    requires ScopeSpecs(specs, RejectionOutcomeName) && {OrgId, RuleId, OccurredAt} <= specs.Keys
    requires ScopeTypeName in d.types && d.types[ScopeTypeName] == o
    requires RejectionOutcomeName in d.types && d.types[RejectionOutcomeName] != o
    ensures SpecsFitEvents(d, specs, o)
  {
    ScopeSpecsGiveColumns(d, specs, RejectionOutcomeName, o);
  }

  lemma EventColumns(d: Db, o: nat)
    requires ScopeTypeName in d.types && d.types[ScopeTypeName] == o
    requires RejectionOutcomeName in d.types && d.types[RejectionOutcomeName] != o
    ensures SpecsFitEvents(d, EVENT_COLUMNS, o)
  {
    EventSpecs();
    EventKeys();
    EventsFit(d, EVENT_COLUMNS, o);
  }

  lemma FirstCheckRuns(d: Db, columns: map<Column, ColumnDef>, o: nat)
    requires RuleColumnsOk(columns, o) && o in d.enums && d.enums[o] == OLD_VALUES
    requires RateLimitRules in d.tables && d.tables[RateLimitRules] == Table(columns, map[], map[])
    ensures Perform(d, CreateCheck(RateLimitRules, CkScopeTeam, TWO_WAY)) ==
              Ok(SetTable(d, RateLimitRules, Table(columns, map[], map[CkScopeTeam := TwoWay(o)])))
  {
    BindTwoWay(columns, d.enums, o);
    var checks: map<CheckName, Expr> := map[];
    assert checks[CkScopeTeam := TwoWay(o)] == map[CkScopeTeam := TwoWay(o)];
  }

  lemma RulesTableRuns(d: Db, specs: map<Column, ColumnSpec>, o: nat)
    requires RateLimitRules !in d.tables && SpecsFitRules(d, specs, o)
    ensures Run(d, CreateRules(specs)) ==
              Run(SetTable(d, RateLimitRules, Table(Defs(d, specs), map[], map[])), CreateRules(specs), 1)
  {
    TableRuns(d, RateLimitRules, specs);
    RunStep(d, CreateRules(specs), 0, Ok(SetTable(d, RateLimitRules, Table(Defs(d, specs), map[], map[]))));
  }

  lemma RulesCheckRuns(d: Db, columns: map<Column, ColumnDef>, specs: map<Column, ColumnSpec>, o: nat)
    requires RuleColumnsOk(columns, o) && o in d.enums && d.enums[o] == OLD_VALUES
    ensures Run(SetTable(d, RateLimitRules, Table(columns, map[], map[])), CreateRules(specs), 1) ==
              Run(SetTable(d, RateLimitRules, Table(columns, map[], map[CkScopeTeam := TwoWay(o)])), CreateRules(specs), 2)
  {
    var d1 := SetTable(d, RateLimitRules, Table(columns, map[], map[]));
    var d2 := SetTable(d, RateLimitRules, Table(columns, map[], map[CkScopeTeam := TwoWay(o)]));
    FirstCheckRuns(d1, columns, o);
    assert SetTable(d1, RateLimitRules, Table(columns, map[], map[CkScopeTeam := TwoWay(o)])) == d2;
    RunStep(d1, CreateRules(specs), 1, Ok(d2));
  }

  lemma RulesIndexesRun(d: Db, columns: map<Column, ColumnDef>, specs: map<Column, ColumnSpec>, o: nat)
    requires RuleColumnsOk(columns, o) && o in d.enums && d.enums[o] == OLD_VALUES
    requires UqOrgDefault !in d.indexes && UqTeamScoped !in d.indexes
    ensures Run(SetTable(d, RateLimitRules, Table(columns, map[], map[CkScopeTeam := TwoWay(o)])), CreateRules(specs), 2) ==
              Ok(WithRules(d, columns, o))
  {
    FirstIndexesRun(d, columns, o);
    var d2 := SetTable(d, RateLimitRules, Table(columns, map[], map[CkScopeTeam := TwoWay(o)]));
    var d3 := d2.(indexes := d2.indexes[UqOrgDefault := OrgDefaultIndex(o)]);
    RunStep(d2, CreateRules(specs), 2, Ok(d3));
    RunStep(d3, CreateRules(specs), 3, Ok(WithRules(d, columns, o)));
  }

  lemma RulesRun(d: Db, specs: map<Column, ColumnSpec>, o: nat)
    requires RateLimitRules !in d.tables && UqOrgDefault !in d.indexes && UqTeamScoped !in d.indexes
    requires o in d.enums && d.enums[o] == OLD_VALUES && SpecsFitRules(d, specs, o)
    ensures Run(d, CreateRules(specs)) == Ok(WithRules(d, Defs(d, specs), o))
  {
    RulesTableRuns(d, specs, o);
    RulesCheckRuns(d, Defs(d, specs), specs, o);
    RulesIndexesRun(d, Defs(d, specs), specs, o);
  }

  lemma FirstIndexesRun(d: Db, columns: map<Column, ColumnDef>, o: nat)
    requires UqOrgDefault !in d.indexes && UqTeamScoped !in d.indexes && o in d.enums && d.enums[o] == OLD_VALUES
    requires RuleColumnsOk(columns, o)
    ensures var d2 := SetTable(d, RateLimitRules, Table(columns, map[], map[CkScopeTeam := TwoWay(o)]));
            var d3 := d2.(indexes := d2.indexes[UqOrgDefault := OrgDefaultIndex(o)]);
            Perform(d2, CREATE_ORG_DEFAULT) == Ok(d3) && Perform(d3, CREATE_TEAM_SCOPED) == Ok(WithRules(d, columns, o))
  {
    assert ORG_DEFAULT == OLD_VALUES[0];
    RecreateIndexes(SetTable(d, RateLimitRules, Table(columns, map[], map[CkScopeTeam := TwoWay(o)])), o, o, OLD_VALUES);
  }

  lemma PlainIndexRuns(d: Db, n: IndexName, ix: Index)
    requires n !in d.indexes && ix.table in d.tables && !ix.unique && !ix.isConstraint && ix.filter == EAlways
    requires forall c <- ix.columns :: c in d.tables[ix.table].columns
    ensures Perform(d, CreateIndex(n, ix.table, ix.columns, false, Always)) == Ok(d.(indexes := d.indexes[n := ix]))
  {
  }

  lemma EventsRun(d: Db, specs: map<Column, ColumnSpec>, o: nat)
    requires RejectionEvents !in d.tables && IxEventsByOrg !in d.indexes && IxEventsByRule !in d.indexes
    requires SpecsFitEvents(d, specs, o)
    ensures Run(d, CreateEvents(specs)) == Ok(WithEvents(d, Defs(d, specs)))
  {
    var columns, script := Defs(d, specs), CreateEvents(specs);
    TableRuns(d, RejectionEvents, specs);
    var d1 := SetTable(d, RejectionEvents, Table(columns, map[], map[]));
    RunStep(d, script, 0, Ok(d1));
    var d2 := d1.(indexes := d1.indexes[IxEventsByOrg := BY_ORG]);
    PlainIndexRuns(d1, IxEventsByOrg, BY_ORG);
    RunStep(d1, script, 1, Ok(d2));
    PlainIndexRuns(d2, IxEventsByRule, BY_RULE);
    RunStep(d2, script, 2, Ok(WithEvents(d, columns)));
  }

  function Created(db: Db, rules: map<Column, ColumnDef>, events: map<Column, ColumnDef>): Db {
    WithEvents(WithRules(WithTypes(db), rules, db.nextOid), events)
  }

  function Origin(db: Db): Db {
    Created(db, Defs(WithTypes(db), RULE_COLUMNS), Defs(WithTypes(db), EVENT_COLUMNS))
  }

  lemma EventsStillFit(d: Db, e: Db, specs: map<Column, ColumnSpec>, o: nat)
    requires SpecsFitEvents(d, specs, o) && e.types == d.types
    ensures SpecsFitEvents(e, specs, o) && Defs(e, specs) == Defs(d, specs)
  {
    SameDefs(d, e, specs);
  }

  lemma EventsRunAfter(d: Db, e: Db, events: map<Column, ColumnSpec>, o: nat)
    requires SpecsFitEvents(d, events, o) && e.types == d.types
    requires RejectionEvents !in e.tables && IxEventsByOrg !in e.indexes && IxEventsByRule !in e.indexes
    ensures Run(e, CreateEvents(events)) == Ok(WithEvents(e, Defs(d, events)))
  {
    EventsStillFit(d, e, events, o);
    EventsRun(e, events, o);
  }

  lemma RulesLeaveTheRest(d: Db, columns: map<Column, ColumnDef>, o: nat)
    requires RejectionEvents !in d.tables && IxEventsByOrg !in d.indexes && IxEventsByRule !in d.indexes
    ensures var e := WithRules(d, columns, o);
            e.types == d.types && RejectionEvents !in e.tables && IxEventsByOrg !in e.indexes && IxEventsByRule !in e.indexes
  {
  }

  lemma TablesRun(d: Db, rules: map<Column, ColumnSpec>, events: map<Column, ColumnSpec>, o: nat)
    requires SpecsFitRules(d, rules, o) && SpecsFitEvents(d, events, o) && o in d.enums && d.enums[o] == OLD_VALUES
    requires RateLimitRules !in d.tables && RejectionEvents !in d.tables
    requires UqOrgDefault !in d.indexes && UqTeamScoped !in d.indexes
    requires IxEventsByOrg !in d.indexes && IxEventsByRule !in d.indexes
    ensures var e := WithRules(d, Defs(d, rules), o);
            && Run(d, CreateRules(rules)) == Ok(e)
            && Run(e, CreateEvents(events)) == Ok(WithEvents(e, Defs(d, events)))
  {
    RulesRun(d, rules, o);
    RulesLeaveTheRest(d, Defs(d, rules), o);
    EventsRunAfter(d, WithRules(d, Defs(d, rules), o), events, o);
  }

  lemma NamesStillFree(db: Db)
    requires NamesFree(db)
    ensures var d := WithTypes(db);
            && db.nextOid in d.enums && d.enums[db.nextOid] == OLD_VALUES
            && RateLimitRules !in d.tables && RejectionEvents !in d.tables
            && UqOrgDefault !in d.indexes && UqTeamScoped !in d.indexes
            && IxEventsByOrg !in d.indexes && IxEventsByRule !in d.indexes
  {
  }

  lemma CreatesAll(db: Db, rules: map<Column, ColumnSpec>, events: map<Column, ColumnSpec>)
    requires NamesFree(db) && SpecsFitRules(WithTypes(db), rules, db.nextOid) && SpecsFitEvents(WithTypes(db), events, db.nextOid)
    ensures Run(db, CREATE_TYPES + CreateRules(rules) + CreateEvents(events)) ==
              Ok(Created(db, Defs(WithTypes(db), rules), Defs(WithTypes(db), events)))
  {
    var o, d := db.nextOid, WithTypes(db);
    TypesRun(db);
    NamesStillFree(db);
    TablesRun(d, rules, events, o);
    RunThreeOk(db, CREATE_TYPES, CreateRules(rules), CreateEvents(events), d, WithRules(d, Defs(d, rules), o),
               Created(db, Defs(d, rules), Defs(d, events)));
  }

  lemma InThreeParts()
    ensures UPGRADE_0026 == CREATE_TYPES + CreateRules(RULE_COLUMNS) + CreateEvents(EVENT_COLUMNS)
  {
  }

  lemma Upgrade0026Runs(db: Db)
    requires NamesFree(db)
    ensures Run(db, UPGRADE_0026) == Ok(Origin(db))
  {
    RuleColumns(WithTypes(db), db.nextOid);
    EventColumns(WithTypes(db), db.nextOid);
    CreatesAll(db, RULE_COLUMNS, EVENT_COLUMNS);
    InThreeParts();
  }

  /** The schema that 0026 leaves, with whatever rows have arrived since and whatever else the
      migrations between have built. */
  ghost predicate Schema0026(db: Db) {
    && Consistent(db)
    && ScopeTypeOk(db, OLD_VALUES) && IndexesOk(db) && LiteralsOnlyIn(db, CkScopeTeam)
    && var rules := db.tables[RateLimitRules];
    && ScopeUserId !in rules.columns && UqUserScoped !in db.indexes && CkScopeId !in rules.checks
    && CkScopeTeam in rules.checks && rules.checks[CkScopeTeam] == TwoWay(Scope(db))
    && RequestsPerMin in rules.columns && TokensPerMin in rules.columns && CkAtLeastOneLimit !in rules.checks
  }

  lemma OldTypeElsewhere(db: Db, t: TableName, c: Column)
    requires Consistent(db) && t in db.tables && c in db.tables[t].columns
    ensures db.tables[t].columns[c].ctype != Enum(db.nextOid)
  {
    assert TableOk(db.enums, db.tables[t]);
  }

  ghost predicate NobodyUses(db: Db, o: nat) {
    forall t, c :: t in db.tables && c in db.tables[t].columns ==> db.tables[t].columns[c].ctype != Enum(o)
  }

  lemma CreatedScope(db: Db, rules: map<Column, ColumnDef>, events: map<Column, ColumnDef>)
    requires NobodyUses(db, db.nextOid) && ScopeTypeOldName !in db.types && ScopeTypeNewName !in db.types
    requires RuleColumnsOk(rules, db.nextOid) && ScopeColumns(events, db.nextOid)
    ensures ScopeTypeOk(Created(db, rules, events), OLD_VALUES)
  {
  }

  lemma CreatedLiterals(db: Db, rules: map<Column, ColumnDef>, events: map<Column, ColumnDef>)
    requires Consistent(db)
    ensures LiteralsOnlyIn(Created(db, rules, events), CkScopeTeam)
  {
    NextTypeUnused(db);
  }

  lemma CreatedParts(db: Db, rules: map<Column, ColumnDef>, events: map<Column, ColumnDef>)
    requires UqUserScoped !in db.indexes
    requires RuleColumnsOk(rules, db.nextOid)
    ensures var d := Created(db, rules, events);
            && IndexesOk(d) && UqUserScoped !in d.indexes
            && RateLimitRules in d.tables
            && d.tables[RateLimitRules] == Table(rules, map[], map[CkScopeTeam := TwoWay(Scope(d))])
  {
  }

  lemma CreatedGivesSchema(db: Db, rules: map<Column, ColumnDef>, events: map<Column, ColumnDef>)
    requires Consistent(db) && NamesFree(db)
    requires RuleColumnsOk(rules, db.nextOid) && ScopeColumns(events, db.nextOid)
    requires Consistent(Created(db, rules, events))
    ensures Schema0026(Created(db, rules, events))
  {
    forall t, c | t in db.tables && c in db.tables[t].columns ensures db.tables[t].columns[c].ctype != Enum(db.nextOid) {
      OldTypeElsewhere(db, t, c);
    }
    CreatedScope(db, rules, events);
    CreatedLiterals(db, rules, events);
    CreatedParts(db, rules, events);
    AreSchema0026(Created(db, rules, events), rules, db.nextOid);
  }

  lemma AreSchema0026(d: Db, rules: map<Column, ColumnDef>, o: nat)
    requires Consistent(d) && ScopeTypeOk(d, OLD_VALUES) && LiteralsOnlyIn(d, CkScopeTeam) && IndexesOk(d)
    requires UqUserScoped !in d.indexes && RuleColumnsOk(rules, o)
    requires d.tables[RateLimitRules] == Table(rules, map[], map[CkScopeTeam := TwoWay(Scope(d))])
    ensures Schema0026(d)
  {
  }

  /** On every consistent database where the names are free, 0026 runs and leaves its schema. */
  lemma Upgrade0026GivesSchema(db: Db)
    requires Consistent(db) && NamesFree(db)
    ensures Run(db, UPGRADE_0026) == Ok(Origin(db)) && Schema0026(Origin(db))
  {
    var d := WithTypes(db);
    Upgrade0026Runs(db);
    RunKeepsConsistent(db, UPGRADE_0026, 0);
    RuleColumns(d, db.nextOid);
    EventColumns(d, db.nextOid);
    CreatedGivesSchema(db, Defs(d, RULE_COLUMNS), Defs(d, EVENT_COLUMNS));
  }

  predicate HasLimit(r: Row) {
    Get(r, RequestsPerMin) != Null || Get(r, TokensPerMin) != Null
  }

  function WithLimitCheck(d: Db): Db
    requires RateLimitRules in d.tables
  {
    var t := d.tables[RateLimitRules];
    SetTable(d, RateLimitRules, t.(checks := t.checks[CkAtLeastOneLimit := LIMIT_EXPR]))
  }

  lemma LimitCheckRuns(d: Db)
    requires RateLimitRules in d.tables && CkAtLeastOneLimit !in d.tables[RateLimitRules].checks
    requires RequestsPerMin in d.tables[RateLimitRules].columns && TokensPerMin in d.tables[RateLimitRules].columns
    ensures Run(d, UPGRADE_0033) ==
              if forall i :: i in d.tables[RateLimitRules].rows ==> HasLimit(d.tables[RateLimitRules].rows[i])
              then Ok(WithLimitCheck(d)) else Err(CheckViolated)
  {
    var t := d.tables[RateLimitRules];
    assert Bind(t.columns, d.enums, AT_LEAST_ONE_LIMIT) == Ok(LIMIT_EXPR);
    forall r: Row ensures Eval(LIMIT_EXPR, r) != No <==> HasLimit(r) {
      assert Eval(LIMIT_EXPR.left, r) == TruthOf(Get(r, RequestsPerMin) != Null);
    }
    assert Satisfies(LIMIT_EXPR, t.rows) <==> forall i :: i in t.rows ==> HasLimit(t.rows[i]);
    RunStep(d, UPGRADE_0033, 0, Perform(d, UPGRADE_0033[0]));
  }

  lemma LimitCheckedScope(d: Db)
    requires ScopeTypeOk(d, OLD_VALUES)
    ensures ScopeTypeOk(WithLimitCheck(d), OLD_VALUES)
  {
  }

  lemma LimitCheckedLiterals(d: Db)
    requires RateLimitRules in d.tables && LiteralsOnlyIn(d, CkScopeTeam)
    ensures LiteralsOnlyIn(WithLimitCheck(d), CkScopeTeam)
  {
    assert !HasLiteralOf(LIMIT_EXPR.left, Scope(d)) && !HasLiteralOf(LIMIT_EXPR.right, Scope(d));
  }

  /** 0033 succeeds exactly when every rule already has a limit, and then leaves the schema that
      0034 starts from. */
  lemma Upgrade0033GivesSchemaIff(db: Db)
    requires Schema0026(db)
    ensures var rows := db.tables[RateLimitRules].rows; var d := Run(db, UPGRADE_0033);
            && (d.Ok? <==> forall i :: i in rows ==> HasLimit(rows[i]))
            && (d.Ok? ==> d.value == WithLimitCheck(db) && Schema0033(d.value))
  {
    LimitCheckRuns(db);
    if Run(db, UPGRADE_0033).Ok? {
      LimitCheckedGivesSchema(db);
    }
  }

  lemma LimitCheckedGivesSchema(db: Db)
    requires Schema0026(db) && Run(db, UPGRADE_0033) == Ok(WithLimitCheck(db))
    ensures Schema0033(WithLimitCheck(db))
  {
    RunKeepsConsistent(db, UPGRADE_0033, 0);
    LimitCheckedScope(db);
    LimitCheckedLiterals(db);
    LimitCheckedParts(db);
    AreSchema0033(WithLimitCheck(db));
  }

  lemma LimitCheckedParts(db: Db)
    requires RateLimitRules in db.tables && IndexesOk(db)
    ensures var d := WithLimitCheck(db);
            && IndexesOk(d) && d.indexes == db.indexes
            && var before, after := db.tables[RateLimitRules], d.tables[RateLimitRules];
            && after.columns == before.columns
            && (forall k :: k in after.checks && k != CkAtLeastOneLimit ==> k in before.checks)
            && (CkScopeTeam in before.checks ==>
                  CkScopeTeam in after.checks && after.checks[CkScopeTeam] == before.checks[CkScopeTeam])
            && CkAtLeastOneLimit in after.checks && after.checks[CkAtLeastOneLimit] == LIMIT_EXPR
  {
  }

  const ALL_THREE := UPGRADE_0026 + UPGRADE_0033 + UPGRADE_0034

  lemma ReadyFor0034(db: Db)
    requires Consistent(db) && NamesFree(db)
    ensures Run(Origin(db), UPGRADE_0033) == Ok(WithLimitCheck(Origin(db))) && Schema0033(WithLimitCheck(Origin(db)))
  {
    Upgrade0026GivesSchema(db);
    OriginHasNoRows(db);
    Upgrade0033GivesSchemaIff(Origin(db));
  }

  lemma AllThreeGive(db: Db)
    requires Consistent(db) && NamesFree(db)
    ensures Run(db, ALL_THREE) == Ok(Upgraded(WithLimitCheck(Origin(db))))
  {
    var d := Origin(db);
    Upgrade0026GivesSchema(db);
    ReadyFor0034(db);
    UpgradeRuns(WithLimitCheck(d));
    RunThreeOk(db, UPGRADE_0026, UPGRADE_0033, UPGRADE_0034, d, WithLimitCheck(d), Upgraded(WithLimitCheck(d)));
  }

  /** So 0026, 0033 and 0034 run one after the other on every such database, the empty one included. */
  lemma AllThreeUpgradesRun(db: Db)
    requires Consistent(db) && NamesFree(db)
    ensures var d := Run(db, ALL_THREE); d.Ok? && Schema0034(d.value)
  {
    AllThreeGive(db);
    ReadyFor0034(db);
    UpgradedFits(WithLimitCheck(Origin(db)));
  }

  lemma UpgradedFits(d: Db)
    requires Schema0033(d)
    ensures Schema0034(Upgraded(d))
  {
    UpgradeRuns(d);
    UpgradeGivesSchema0034(d);
  }

  lemma OriginHasNoRows(db: Db)
    ensures RateLimitRules in Origin(db).tables && Origin(db).tables[RateLimitRules].rows == map[]
  {
  }

  lemma EmptyDatabaseIsOne()
    ensures Consistent(EMPTY) && NamesFree(EMPTY)
  {
  }
}
