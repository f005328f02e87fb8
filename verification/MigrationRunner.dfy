/** How migrations are applied (backend/alembic/env.py): statement by statement, changing the
    database in place, inside one transaction around all the revisions of a run. */
module MigrationRunner {
  import opened Options
  import opened Catalog
  import R = RateLimitMigration
  import RT = RateLimitRoundTrip
  import P = ProviderKeyMigration

  /** Several revisions as one script. */
  function Joined(revisions: seq<seq<Statement>>): seq<Statement> {
    if revisions == [] then [] else revisions[0] + Joined(revisions[1..])
  }

  lemma {:induction false} JoinedSnoc(revisions: seq<seq<Statement>>, last: seq<Statement>)
    ensures Joined(revisions + [last]) == Joined(revisions) + last
  {
    if revisions == [] {
      assert [last][1..] == [];
    } else {
      assert (revisions + [last])[1..] == revisions[1..] + [last];
      JoinedSnoc(revisions[1..], last);
    }
  }

  lemma {:induction false} JoinedConcat(a: seq<seq<Statement>>, b: seq<seq<Statement>>)
    ensures Joined(a + b) == Joined(a) + Joined(b)
  {
    if a == [] {
      assert a + b == b;
    } else {
      assert (a + b)[1..] == a[1..] + b;
      JoinedConcat(a[1..], b);
    }
  }

  class Database {
    var types: map<TypeName, nat>
    var enums: map<nat, seq<string>>
    var tables: map<TableName, Table>
    var indexes: map<IndexName, Index>
    var nextOid: nat

    function Snapshot(): Db
      reads this
    {
      Db(types, enums, tables, indexes, nextOid)
    }

    constructor (db: Db)
      ensures Snapshot() == db
    {
      types, enums, tables, indexes, nextOid := db.types, db.enums, db.tables, db.indexes, db.nextOid;
    }

    method Restore(db: Db)
      modifies this
      ensures Snapshot() == db
    {
      types, enums, tables, indexes, nextOid := db.types, db.enums, db.tables, db.indexes, db.nextOid;
    }

    /** One statement; a refused one changes nothing. */
    method Execute(s: Statement) returns (error: Option<Error>)
      modifies this
      ensures match Perform(old(Snapshot()), s)
              case Ok(d) => error == None && Snapshot() == d
              case Err(e) => error == Some(e) && Snapshot() == old(Snapshot())
    {
      var next := Perform(Snapshot(), s);
      match next
      case Ok(d) =>
        Restore(d);
        error := None;
      case Err(e) =>
        error := Some(e);
    }

    /** One revision's `upgrade` or `downgrade`: its statements in order, up to the first refusal. */
    method Apply(script: seq<Statement>) returns (error: Option<Error>)
      modifies this
      ensures match Run(old(Snapshot()), script)
              case Ok(d) => error == None && Snapshot() == d
              case Err(e) => error == Some(e)
    {
      var k := 0;
      while k < |script|
        invariant 0 <= k <= |script|
        invariant Run(old(Snapshot()), script) == Run(Snapshot(), script, k)
      {
        error := Execute(script[k]);
        if error.Some? {
          return;
        }
        k := k + 1;
      }
      error := None;
    }

    /** All revisions of a run in one transaction: either every statement of every revision has
        taken effect, or none has. */
    method Migrate(revisions: seq<seq<Statement>>) returns (error: Option<Error>)
      modifies this
      ensures match Run(old(Snapshot()), Joined(revisions))
              case Ok(d) => error == None && Snapshot() == d
              case Err(e) => error == Some(e) && Snapshot() == old(Snapshot())
    {
      var before := Snapshot();
      var k := 0;
      while k < |revisions|
        invariant 0 <= k <= |revisions|
        invariant Run(before, Joined(revisions[..k])) == Ok(Snapshot())
      {
        assert revisions[..k + 1] == revisions[..k] + [revisions[k]];
        JoinedSnoc(revisions[..k], revisions[k]);
        RunConcat(before, Joined(revisions[..k]), revisions[k], 0);
        error := Apply(revisions[k]);
        if error.Some? {
          assert revisions == revisions[..k + 1] + revisions[k + 1..];
          JoinedConcat(revisions[..k + 1], revisions[k + 1..]);
          RunConcat(before, Joined(revisions[..k + 1]), Joined(revisions[k + 1..]), 0);
          Restore(before);
          return;
        }
        k := k + 1;
      }
      assert revisions[..k] == revisions;
      error := None;
    }
  }

  lemma JoinedOne(script: seq<Statement>)
    ensures Joined([script]) == script
  {
    assert Joined([script][1..]) == [];
  }

  /** Adding the user scope never fails. */
  method UpgradeRateLimits(db: Database) returns (error: Option<Error>)
    requires R.Schema0033(db.Snapshot())
    modifies db
    ensures error == None && R.Schema0034(db.Snapshot()) && db.Snapshot() == R.Upgraded(old(db.Snapshot()))
  {
    R.UpgradeRuns(db.Snapshot());
    R.UpgradeGivesSchema0034(db.Snapshot());
    JoinedOne(R.UPGRADE_0034);
    error := db.Migrate([R.UPGRADE_0034]);
  }

  /** Removing it fails exactly when some row is scoped to a user, and then changes nothing. */
  method DowngradeRateLimits(db: Database) returns (error: Option<Error>)
    requires R.Schema0034(db.Snapshot())
    modifies db
    ensures error == None <==> R.NoUserScope(old(db.Snapshot()), RateLimitRules) &&
                               R.NoUserScope(old(db.Snapshot()), RejectionEvents)
    ensures error == None ==> R.Schema0033(db.Snapshot())
    ensures error.Some? ==> db.Snapshot() == old(db.Snapshot())
  {
    ghost var before := db.Snapshot();
    R.DowngradeRunsIff(before);
    JoinedOne(R.DOWNGRADE_0034);
    error := db.Migrate([R.DOWNGRADE_0034]);
    if error == None {
      RT.DowngradeGivesSchema0033(before);
    }
  }

  /** Several keys per provider: the upgrade never fails. */
  method UpgradeProviderKeys(db: Database) returns (error: Option<Error>)
    requires P.Schema0022(db.Snapshot())
    modifies db
    ensures error == None && P.Schema0023(db.Snapshot()) && db.Snapshot() == P.Upgraded(old(db.Snapshot()))
  {
    P.UpgradeRuns(db.Snapshot());
    P.UpgradeGivesSchema0023(db.Snapshot());
    JoinedOne(P.UPGRADE_0023);
    error := db.Migrate([P.UPGRADE_0023]);
  }

  /** Going back to one key per provider fails exactly when some pair has two, and then changes
      nothing. */
  method DowngradeProviderKeys(db: Database) returns (error: Option<Error>)
    requires P.Schema0023(db.Snapshot())
    modifies db
    ensures error.Some? <==> P.SecondKey(P.Keys(old(db.Snapshot())).rows)
    ensures db.Snapshot() == if error == None then P.Downgraded(old(db.Snapshot())) else old(db.Snapshot())
  {
    P.DowngradeRunsIff(db.Snapshot());
    JoinedOne(P.DOWNGRADE_0023);
    error := db.Migrate([P.DOWNGRADE_0023]);
  }
}
