/** Migration 0001 leaves the schema that module ProviderKeyMigration starts from. */
module ProviderKeyOrigin {
  import opened Options
  import opened Catalog
  import opened CatalogInvariant
  import opened ProviderKeyMigration

  const PROVIDERS := ["openai", "anthropic", "vertex_ai"]
  const ORGS := OtherTable("orgs")

  const ORG_COLUMNS: map<Column, ColumnSpec> := map[Id := OPAQUE, OtherColumn("name") := OPAQUE, CreatedAt := NOW]

  const KEY_COLUMNS: map<Column, ColumnSpec> := map[
    Id := OPAQUE, OrgId := OPAQUE, Provider := ColumnSpec(NamedRef(ProviderName), false, None),
    OtherColumn("ciphertext") := OPAQUE, OtherColumn("nonce") := OPAQUE, OtherColumn("auth_tag") := OPAQUE,
    OtherColumn("metadata") := NOW, OtherColumn("validated_at") := OPAQUE_OR_NULL, CreatedAt := NOW, UpdatedAt := NOW]

  function Script(orgs: map<Column, ColumnSpec>, keys: map<Column, ColumnSpec>): seq<Statement> {
    [CreateEnum(ProviderName, PROVIDERS, true), CreateTable(ORGS, orgs), CreateTable(ProviderKeys, keys),
     CreateUnique(UqOrgProvider, ProviderKeys, [OrgId, Provider])]
  }

  const UPGRADE_0001 := Script(ORG_COLUMNS, KEY_COLUMNS)

  ghost predicate NamesFree(db: Db) {
    && ProviderName !in db.types && ORGS !in db.tables && ProviderKeys !in db.tables
    && UqOrgProvider !in db.indexes && UqOrgProviderLabel !in db.indexes
    && UqOnePrimary !in db.indexes && IxFailoverTarget !in db.indexes
  }

  function WithProviders(db: Db): Db {
    db.(types := db.types[ProviderName := db.nextOid], enums := db.enums[db.nextOid := PROVIDERS], nextOid := db.nextOid + 1)
  }

  function WithTable(d: Db, t: TableName, columns: map<Column, ColumnDef>): Db {
    SetTable(d, t, Table(columns, map[], map[]))
  }

  function Origin(db: Db, orgs: map<Column, ColumnSpec>, keys: map<Column, ColumnSpec>): Db {
    var d := WithProviders(db);
    WithTable(WithTable(d, ORGS, Defs(d, orgs)), ProviderKeys, Defs(d, keys))
      .(indexes := d.indexes[UqOrgProvider := PAIR_INDEX])
  }

  /** The columns that the keys need; each type named exists. */
  ghost predicate SpecsFit(specs: map<Column, ColumnSpec>) {
    && OrgId in specs && !specs[OrgId].nullable && Provider in specs && !specs[Provider].nullable
    && ADDED !! specs.Keys
  }

  ghost predicate TypesKnown(specs: map<Column, ColumnSpec>) {
    forall c :: c in specs ==> specs[c].ctype.BasicRef? || specs[c].ctype == NamedRef(ProviderName)
  }

  lemma PairIndexRuns(d: Db)
    requires HasKeys(d) && OrgId in Keys(d).columns && Provider in Keys(d).columns && Keys(d).rows == map[]
    requires UqOrgProvider !in d.indexes
    ensures Perform(d, CreateUnique(UqOrgProvider, ProviderKeys, [OrgId, Provider])) ==
              Ok(d.(indexes := d.indexes[UqOrgProvider := PAIR_INDEX]))
  {
  }

  lemma ScriptRuns(db: Db, orgs: map<Column, ColumnSpec>, keys: map<Column, ColumnSpec>)
    requires NamesFree(db) && SpecsFit(keys) && TypesKnown(orgs) && TypesKnown(keys)
    ensures Run(db, Script(orgs, keys)) == Ok(Origin(db, orgs, keys))
  {
    var script, d := Script(orgs, keys), WithProviders(db);
    RunStep(db, script, 0, Ok(d));
    TableRuns(d, ORGS, orgs);
    var d2 := WithTable(d, ORGS, Defs(d, orgs));
    RunStep(d, script, 1, Ok(d2));
    SameDefs(d, d2, keys);
    TableRuns(d2, ProviderKeys, keys);
    var d3 := WithTable(d2, ProviderKeys, Defs(d, keys));
    RunStep(d2, script, 2, Ok(d3));
    PairIndexRuns(d3);
    RunStep(d3, script, 3, Ok(Origin(db, orgs, keys)));
  }

  lemma OriginFits(db: Db, orgs: map<Column, ColumnSpec>, keys: map<Column, ColumnSpec>)
    requires NamesFree(db) && SpecsFit(keys) && Consistent(Origin(db, orgs, keys))
    ensures Schema0022(Origin(db, orgs, keys))
  {
  }

  lemma KeysFit()
    ensures SpecsFit(KEY_COLUMNS)
  {
    assert KEY_COLUMNS[OrgId] == OPAQUE && !KEY_COLUMNS[Provider].nullable;
  }

  lemma KeyTypesKnown()
    ensures TypesKnown(KEY_COLUMNS) && TypesKnown(ORG_COLUMNS)
  {
  }

  /** On every consistent database where the names are free 0001 runs, and leaves the keys with
      UNIQUE(org_id, provider). */
  lemma Upgrade0001GivesSchema0022(db: Db)
    requires Consistent(db) && NamesFree(db)
    ensures var d := Run(db, UPGRADE_0001); d.Ok? && Schema0022(d.value)
  {
    KeysFit();
    KeyTypesKnown();
    ScriptRuns(db, ORG_COLUMNS, KEY_COLUMNS);
    RunKeepsConsistent(db, UPGRADE_0001, 0);
    OriginFits(db, ORG_COLUMNS, KEY_COLUMNS);
  }

  lemma EmptyDatabaseIsOne()
    ensures Consistent(EMPTY) && NamesFree(EMPTY)
  {
  }
}
