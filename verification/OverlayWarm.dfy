/** The overlay caches (backend/src/gatekey/services/model_policy.py) and their warms
    (backend/src/gatekey/main.py), which write back with an unconditional `set_all`: no generation,
    no compare-and-set. */
module OverlayWarm {
  import opened Options

  type Team = nat
  type Models = set<string>

  // ---------------------------------------------------------------- the caches as objects

  /** Absence of an entry means "no restriction". Writers replace the whole map. */
  class OverlayCache<K(==), V> {
    var snapshot: map<K, V>

    constructor ()
      ensures snapshot == map[]
    {
      snapshot := map[];
    }

    method Get(k: K) returns (r: Option<V>)
      ensures r == if k in snapshot then Some(snapshot[k]) else None
    {
      r := if k in snapshot then Some(snapshot[k]) else None;
    }

    method SetAll(all: map<K, V>)
      modifies this
      ensures snapshot == all
    {
      snapshot := all;
    }

    method SetOne(k: K, v: V)
      modifies this
      ensures snapshot.Keys == old(snapshot).Keys + {k} && snapshot[k] == v
      ensures forall j :: j in old(snapshot) && j != k ==> snapshot[j] == old(snapshot)[j]
    {
      snapshot := snapshot[k := v];
    }
  }

  /** `_warm_team_model_policy_cache` and `_warm_member_model_policy_cache`; `loaded` is what the
      bounded read gave, `None` when it failed. Never fails itself. */
  method Warm<K(==), V>(cache: OverlayCache<K, V>, loaded: Option<map<K, V>>)
    modifies cache
    ensures cache.snapshot == if loaded.Some? then loaded.value else old(cache.snapshot)
  {
    if loaded.Some? {
      cache.SetAll(loaded.value);
    }
  }

  class ResidencyRuleCache<K(==), R> {
    var orgRule: Option<R>
    var teamRules: map<K, R>

    constructor ()
      ensures orgRule == None && teamRules == map[]
    {
      orgRule, teamRules := None, map[];
    }

    method SetAll(org: Option<R>, teams: map<K, R>)
      modifies this
      ensures orgRule == org && teamRules == teams
    {
      orgRule, teamRules := org, teams;
    }
  }

  /** Two loads on one session, then two writes: either both caches are replaced or neither is,
      also when only the second load fails. */
  method WarmResidencyAndContentAware<K(==), R, C(==), V>(
    residency: ResidencyRuleCache<K, R>, contentAware: OverlayCache<C, V>,
    session: bool, rules: Option<(Option<R>, map<K, R>)>, categories: Option<map<C, V>>)
    returns (warmed: bool)
    modifies residency, contentAware
    ensures warmed <==> session && rules.Some? && categories.Some?
    ensures warmed ==>
              && (residency.orgRule, residency.teamRules) == rules.value
              && contentAware.snapshot == categories.value
    ensures !warmed ==> unchanged(residency) && unchanged(contentAware)
  {
    if !session || rules.None? {
      return false;
    }
    var (org, teams) := rules.value;
    if categories.None? {
      return false;
    }
    residency.SetAll(org, teams);
    contentAware.SetAll(categories.value);
    return true;
  }

  // ---------------------------------------------------------------- the warm among team writes

  /** The commits of each team's row, oldest first. A cache entry is told by which commit it
      holds: 1 is the first, 0 stands for "no entry", that is, no restriction. */
  type Rows = map<Team, seq<Models>>

  datatype Phase = Idle | Reading | HasRead(rows: map<Team, nat>) | Warmed

  datatype State = State(
    db: Rows,
    base: map<Team, nat>,        // the commits from before this process took requests
    cache: map<Team, nat>,
    pending: set<(Team, nat)>,   // committed, set_team still to come
    foreign: set<(Team, nat)>,   // committed by another worker, which has its own cache
    phase: Phase,
    landed: set<Team>,           // teams whose set_team ran between the warm's read and its set_all
    lost: set<Team>)             // teams whose newer entry the warm's set_all replaced
  {
    function Latest(t: Team): nat {
      if t in db then |db[t]| else 0
    }

    /** The restriction the gateway enforces for a team, and the one the database holds. */
    function Enforced(t: Team): Option<Models> {
      if t in cache && t in db && 1 <= cache[t] <= |db[t]| then Some(db[t][cache[t] - 1]) else None
    }

    function Stored(t: Team): Option<Models> {
      if t in db && db[t] != [] then Some(db[t][|db[t]| - 1]) else None
    }
  }

  datatype Action =
    | Commit(team: Team, models: Models)
    | ForeignCommit(team: Team, models: Models)
    | SetTeam(team: Team, version: nat)
    | Begin
    | Select
    | Fails
    | SetAll

  function Version(m: map<Team, nat>, t: Team): nat {
    if t in m then m[t] else 0
  }

  function Counts(db: Rows): map<Team, nat> {
    map t | t in db :: |db[t]|
  }

  function Start(rows: map<Team, Models>): State {
    var db := map t | t in rows :: [rows[t]];
    State(db, Counts(db), map[], {}, {}, Idle, {}, {})
  }

  function Step(s: State, a: Action): State {
    match a
    case Commit(t, models) =>
      s.(db := s.db[t := (if t in s.db then s.db[t] else []) + [models]],
         pending := s.pending + {(t, s.Latest(t) + 1)})
    case ForeignCommit(t, models) =>
      s.(db := s.db[t := (if t in s.db then s.db[t] else []) + [models]],
         foreign := s.foreign + {(t, s.Latest(t) + 1)})
    case SetTeam(t, v) =>
      if (t, v) in s.pending then
        s.(pending := s.pending - {(t, v)},
           cache := s.cache[t := v],
           landed := if s.phase.HasRead? then s.landed + {t} else s.landed,
           lost := s.lost - {t})
      else s
    case Begin => if s.phase.Idle? then s.(phase := Reading) else s
    case Select => if s.phase.Reading? then s.(phase := HasRead(Counts(s.db)), landed := {}) else s
    case Fails => if s.phase.Reading? || s.phase.HasRead? then s.(phase := Idle) else s
    case SetAll =>
      if s.phase.HasRead? then
        s.(cache := s.phase.rows,
           lost := (set t | t in s.cache && Version(s.phase.rows, t) < s.cache[t]),
           phase := Warmed)
      else s
  }

  function Steps(s: State, acts: seq<Action>): State {
    if acts == [] then s else Step(Steps(s, acts[..|acts| - 1]), acts[|acts| - 1])
  }

  /** Each team's writes reach the cache in the order of their commits. */
  ghost predicate Orderly(s: State, a: Action) {
    a.SetTeam? && (a.team, a.version) in s.pending ==>
      forall v :: (a.team, v) in s.pending ==> a.version <= v
  }

  ghost predicate InOrder(s: State, acts: seq<Action>) {
    acts == [] ||
    (InOrder(s, acts[..|acts| - 1]) && Orderly(Steps(s, acts[..|acts| - 1]), acts[|acts| - 1]))
  }

  /** Every commit of `t` above `floor` still has its set_team to come, or is another worker's. */
  ghost predicate Covered(s: State, t: Team, floor: int) {
    forall v :: floor < v <= s.Latest(t) ==> (t, v) in s.pending || (t, v) in s.foreign
  }

  function Max(a: nat, b: nat): nat {
    if a < b then b else a
  }

  ghost predicate TeamOk(s: State, t: Team) {
    && Version(s.base, t) <= s.Latest(t)
    && Version(s.cache, t) <= s.Latest(t)
    && (!s.phase.Warmed? ==> Covered(s, t, Max(Version(s.base, t), Version(s.cache, t))))
    && (s.phase.HasRead? ==>
          && Version(s.base, t) <= Version(s.phase.rows, t) <= s.Latest(t)
          && (Version(s.phase.rows, t) < Version(s.cache, t) ==> t in s.landed)
          && Covered(s, t, Max(Version(s.phase.rows, t), Version(s.cache, t))))
    && (s.phase.Warmed? ==>
          && (t in s.lost ==> Version(s.cache, t) < s.Latest(t) && t in s.landed)
          && (t !in s.lost ==> Covered(s, t, Version(s.cache, t))))
  }

  ghost predicate PendingOk(s: State) {
    && (forall p :: p in s.pending ==> 1 <= p.1 <= s.Latest(p.0) && Covered(s, p.0, p.1))
    && (forall p :: p in s.foreign ==> p.1 <= s.Latest(p.0) && p !in s.pending)
  }

  ghost predicate Inv(s: State) {
    PendingOk(s) && forall t :: TeamOk(s, t)
  }

  predicate Commits(a: Action) {
    a.Commit? || a.ForeignCommit?
  }

  lemma CommitKeepsCovered(s: State, a: Action, t: Team, floor: int)
    requires Covered(s, t, floor) && Commits(a)
    ensures Covered(Step(s, a), t, floor)
  {
    var n := Step(s, a);
    forall v | floor < v <= n.Latest(t) ensures (t, v) in n.pending || (t, v) in n.foreign {
      assert v <= s.Latest(t) ==> (t, v) in s.pending || (t, v) in s.foreign;
    }
  }

  lemma SetTeamKeepsCovered(s: State, u: Team, version: nat, t: Team, floor: int)
    requires Covered(s, t, floor) && (t == u ==> version <= floor)
    ensures Covered(Step(s, SetTeam(u, version)), t, floor)
  {
    var n := Step(s, SetTeam(u, version));
    forall v | floor < v <= n.Latest(t) ensures (t, v) in n.pending || (t, v) in n.foreign {
      assert (t, v) in s.pending || (t, v) in s.foreign;
    }
  }

  lemma CommitKeepsTeam(s: State, a: Action, t: Team)
    requires TeamOk(s, t) && Commits(a)
    ensures TeamOk(Step(s, a), t)
  {
    if !s.phase.Warmed? {
      CommitKeepsCovered(s, a, t, Max(Version(s.base, t), Version(s.cache, t)));
    }
    if s.phase.HasRead? {
      CommitKeepsCovered(s, a, t, Max(Version(s.phase.rows, t), Version(s.cache, t)));
    } else if s.phase.Warmed? && t !in s.lost {
      CommitKeepsCovered(s, a, t, Version(s.cache, t));
    }
  }

  lemma SetTeamKeepsTeam(s: State, u: Team, version: nat, t: Team)
    requires Inv(s) && Orderly(s, SetTeam(u, version)) && (u, version) in s.pending
    ensures TeamOk(Step(s, SetTeam(u, version)), t)
  {
    var n := Step(s, SetTeam(u, version));
    assert TeamOk(s, t);
    if t == u {
      SetTeamKeepsCovered(s, u, version, t, version);
    } else {
      if !s.phase.Warmed? {
        SetTeamKeepsCovered(s, u, version, t, Max(Version(s.base, t), Version(s.cache, t)));
      }
      if s.phase.HasRead? {
        SetTeamKeepsCovered(s, u, version, t, Max(Version(s.phase.rows, t), Version(s.cache, t)));
      } else if s.phase.Warmed? && t !in s.lost {
        SetTeamKeepsCovered(s, u, version, t, Version(s.cache, t));
      }
    }
  }

  lemma StepKeepsTeam(s: State, a: Action, t: Team)
    requires Inv(s) && Orderly(s, a)
    ensures TeamOk(Step(s, a), t)
  {
    assert TeamOk(s, t);
    if Commits(a) {
      CommitKeepsTeam(s, a, t);
    } else if a.SetTeam? {
      if (a.team, a.version) in s.pending {
        SetTeamKeepsTeam(s, a.team, a.version, t);
      }
    } else {
      var n := Step(s, a);
      assert n.pending == s.pending && n.foreign == s.foreign && n.db == s.db;
      assert forall f :: Covered(s, t, f) ==> Covered(n, t, f);
    }
  }

  lemma StepKeepsPending(s: State, a: Action)
    requires Inv(s) && Orderly(s, a)
    ensures PendingOk(Step(s, a))
  {
    var u := Step(s, a);
    forall p | p in u.pending ensures 1 <= p.1 <= u.Latest(p.0) && Covered(u, p.0, p.1) {
      if p in s.pending {
        assert Covered(s, p.0, p.1);
      }
    }
  }

  lemma {:induction false} InOrderRunKeepsInv(rows: map<Team, Models>, acts: seq<Action>)
    requires InOrder(Start(rows), acts)
    ensures Inv(Steps(Start(rows), acts))
  {
    if acts == [] {
    } else {
      var before, a := acts[..|acts| - 1], acts[|acts| - 1];
      InOrderRunKeepsInv(rows, before);
      var s := Steps(Start(rows), before);
      StepKeepsPending(s, a);
      forall t ensures TeamOk(Step(s, a), t) {
        StepKeepsTeam(s, a, t);
      }
    }
  }

  /** With writes in commit order, a warm replaces a newer entry only of a team whose set_team ran
      between its read and its set_all. Every other team is enforced as stored, unless another worker
      wrote it. */
  lemma TeamsNotWrittenMeanwhileAreRight(rows: map<Team, Models>, acts: seq<Action>, t: Team)
    requires InOrder(Start(rows), acts)
    requires Steps(Start(rows), acts).phase.Warmed? && Steps(Start(rows), acts).pending == {}
    ensures var s := Steps(Start(rows), acts);
            && s.lost <= s.landed
            && ((forall v :: (t, v) !in s.foreign) ==>
                  && (Version(s.cache, t) == s.Latest(t) <==> t !in s.lost)
                  && (t !in s.landed ==> s.Enforced(t) == s.Stored(t)))
  {
    InOrderRunKeepsInv(rows, acts);
    var s := Steps(Start(rows), acts);
    assert TeamOk(s, t);
    assert t !in s.lost && Version(s.cache, t) < s.Latest(t) ==> (t, s.Latest(t)) in s.foreign;
    forall u | u in s.lost ensures u in s.landed {
      assert TeamOk(s, u);
    }
  }

  // ---------------------------------------------------------------- which runs end right, in any order

  lemma StepsAt(s0: State, acts: seq<Action>, k: nat)
    requires k < |acts|
    ensures Steps(s0, acts[..k + 1]) == Step(Steps(s0, acts[..k]), acts[k])
  {
    assert acts[..k + 1][..k] == acts[..k];
  }

  predicate CommitsTo(a: Action, t: Team) {
    Commits(a) && a.team == t
  }

  /** The j-th action is a set_team for `t`, and takes effect. */
  predicate SetsTeamAt(s0: State, acts: seq<Action>, t: Team, j: nat)
    requires j < |acts|
  {
    acts[j].SetTeam? && acts[j].team == t && (t, acts[j].version) in Steps(s0, acts[..j]).pending
  }

  /** The j-th action is the warm's set_all, and takes effect. */
  predicate SetsAllAt(s0: State, acts: seq<Action>, j: nat)
    requires j < |acts|
  {
    acts[j].SetAll? && Steps(s0, acts[..j]).phase.HasRead?
  }

  predicate WritesTeamAt(s0: State, acts: seq<Action>, t: Team, j: nat)
    requires j < |acts|
  {
    SetsTeamAt(s0, acts, t, j) || SetsAllAt(s0, acts, j)
  }

  /** Where the read was executed whose rows are in hand before the k-th action. */
  function ReadIndex(s0: State, acts: seq<Action>, k: nat): nat
    requires k <= |acts|
  {
    if k == 0 then 0
    else if Steps(s0, acts[..k - 1]).phase.HasRead? then ReadIndex(s0, acts, k - 1)
    else k - 1
  }

  /** The j-th action is a set_all of rows that were read after the last commit for `t`. */
  ghost predicate FreshSetAllAt(s0: State, acts: seq<Action>, t: Team, j: nat)
    requires j < |acts|
  {
    SetsAllAt(s0, acts, j) && forall m :: ReadIndex(s0, acts, j) < m < |acts| ==> !CommitsTo(acts[m], t)
  }

  /** The j-th action writes an entry for `t` that is not of version `top`, the newest one. */
  ghost predicate StaleWriteAt(s0: State, acts: seq<Action>, t: Team, top: nat, j: nat)
    requires j < |acts|
  {
    || (SetsTeamAt(s0, acts, t, j) && acts[j].version < top)
    || (SetsAllAt(s0, acts, j) && !FreshSetAllAt(s0, acts, t, j))
  }

  /** After the set_team of the newest version comes a set_team of an older one, or a set_all of rows
      read before the newest commit, and no set_all of rows read since it makes up for that. */
  ghost predicate OvertakenAt(s0: State, acts: seq<Action>, t: Team, top: nat, i: nat, j: nat)
    requires i < j < |acts|
  {
    && SetsTeamAt(s0, acts, t, i) && acts[i].version == top && StaleWriteAt(s0, acts, t, top, j)
    && forall m :: j < m < |acts| ==> !FreshSetAllAt(s0, acts, t, m)
  }

  ghost predicate Overtaken(s0: State, acts: seq<Action>, t: Team, top: nat) {
    exists i, j :: 0 <= i < j < |acts| && OvertakenAt(s0, acts, t, top, i, j)
  }

  /** The warm read after the last commit for `t`, and no set_team for it takes effect after its
      set_all. */
  ghost predicate WarmedLast(s0: State, acts: seq<Action>, t: Team) {
    exists j :: 0 <= j < |acts| && FreshSetAllAt(s0, acts, t, j)
      && forall m :: j < m < |acts| ==> !SetsTeamAt(s0, acts, t, m)
  }

  ghost predicate SomeSetAll(s0: State, acts: seq<Action>) {
    exists j :: 0 <= j < |acts| && SetsAllAt(s0, acts, j)
  }

  // ---------------------------------------------------------------- reads and commits

  lemma LatestAfter(s0: State, acts: seq<Action>, t: Team, k: nat)
    requires k < |acts|
    ensures Steps(s0, acts[..k + 1]).Latest(t) == Steps(s0, acts[..k]).Latest(t) + if CommitsTo(acts[k], t) then 1 else 0
  {
    StepsAt(s0, acts, k);
  }

  lemma {:induction false} LatestGrows(s0: State, acts: seq<Action>, t: Team, i: nat, k: nat)
    requires i <= k <= |acts|
    ensures Steps(s0, acts[..i]).Latest(t) <= Steps(s0, acts[..k]).Latest(t)
    ensures Steps(s0, acts[..i]).Latest(t) == Steps(s0, acts[..k]).Latest(t) <==>
              forall m :: i <= m < k ==> !CommitsTo(acts[m], t)
    decreases k
  {
    if i < k {
      LatestGrows(s0, acts, t, i, k - 1);
      LatestAfter(s0, acts, t, k - 1);
    }
  }

  lemma PhaseAfter(s0: State, acts: seq<Action>, t: Team, k: nat)
    requires k < |acts| && Steps(s0, acts[..k + 1]).phase.HasRead?
    ensures var before, after := Steps(s0, acts[..k]), Steps(s0, acts[..k + 1]);
            if before.phase.HasRead? then after.phase == before.phase
            else acts[k].Select? && Version(after.phase.rows, t) == before.Latest(t)
  {
    StepsAt(s0, acts, k);
  }

  lemma {:induction false} RowsAreOfTheRead(s0: State, acts: seq<Action>, t: Team, k: nat)
    requires s0.phase.Idle? && k <= |acts| && Steps(s0, acts[..k]).phase.HasRead?
    ensures var i := ReadIndex(s0, acts, k);
            i < k && acts[i].Select? && Version(Steps(s0, acts[..k]).phase.rows, t) == Steps(s0, acts[..i]).Latest(t)
  {
    assert acts[..0] == [];
    PhaseAfter(s0, acts, t, k - 1);
    if Steps(s0, acts[..k - 1]).phase.HasRead? {
      RowsAreOfTheRead(s0, acts, t, k - 1);
    }
  }

  /** A set_all brings the newest version of `t` exactly when its read came after the last commit. */
  lemma FreshIffNewest(s0: State, acts: seq<Action>, t: Team, j: nat)
    requires s0.phase.Idle? && j < |acts| && SetsAllAt(s0, acts, j)
    ensures var v, top := Version(Steps(s0, acts[..j]).phase.rows, t), Steps(s0, acts[..|acts|]).Latest(t);
            v <= top && (v == top <==> FreshSetAllAt(s0, acts, t, j))
  {
    var i := ReadIndex(s0, acts, j);
    RowsAreOfTheRead(s0, acts, t, j);
    LatestGrows(s0, acts, t, i, |acts|);
    assert !CommitsTo(acts[i], t);
  }

  // ---------------------------------------------------------------- who wrote last

  /** The version of `t` that the j-th action writes. */
  function VersionWritten(s0: State, acts: seq<Action>, t: Team, j: nat): nat
    requires j < |acts| && WritesTeamAt(s0, acts, t, j)
  {
    if SetsTeamAt(s0, acts, t, j) then acts[j].version else Version(Steps(s0, acts[..j]).phase.rows, t)
  }

  lemma CacheAfter(s0: State, acts: seq<Action>, t: Team, k: nat)
    requires k < |acts|
    ensures Version(Steps(s0, acts[..k + 1]).cache, t) ==
              if WritesTeamAt(s0, acts, t, k) then VersionWritten(s0, acts, t, k)
              else Version(Steps(s0, acts[..k]).cache, t)
  {
    StepsAt(s0, acts, k);
  }

  ghost predicate WrittenBy(s0: State, acts: seq<Action>, t: Team, j: nat, k: nat)
    requires j < k <= |acts|
  {
    && WritesTeamAt(s0, acts, t, j) && (forall m :: j < m < k ==> !WritesTeamAt(s0, acts, t, m))
    && Version(Steps(s0, acts[..k]).cache, t) == VersionWritten(s0, acts, t, j)
  }

  lemma StillWrittenBy(s0: State, acts: seq<Action>, t: Team, j: nat, k: nat)
    requires j < k < |acts| && WrittenBy(s0, acts, t, j, k) && !WritesTeamAt(s0, acts, t, k)
    requires Version(Steps(s0, acts[..k + 1]).cache, t) == Version(Steps(s0, acts[..k]).cache, t)
    ensures WrittenBy(s0, acts, t, j, k + 1)
  {
  }

  lemma {:induction false} LastTeamWrite(s0: State, acts: seq<Action>, t: Team, k: nat, m: nat) returns (j: nat)
    requires m < k <= |acts| && WritesTeamAt(s0, acts, t, m)
    ensures m <= j < k && WrittenBy(s0, acts, t, j, k)
    decreases k
  {
    CacheAfter(s0, acts, t, k - 1);
    if WritesTeamAt(s0, acts, t, k - 1) {
      j := k - 1;
    } else {
      j := LastTeamWrite(s0, acts, t, k - 1, m);
      StillWrittenBy(s0, acts, t, j, k - 1);
    }
  }

  lemma {:induction false} NoTeamWrite(s0: State, acts: seq<Action>, t: Team, k: nat)
    requires k <= |acts| && forall m :: 0 <= m < k ==> !WritesTeamAt(s0, acts, t, m)
    ensures Version(Steps(s0, acts[..k]).cache, t) == Version(s0.cache, t)
  {
    if k > 0 {
      NoTeamWrite(s0, acts, t, k - 1);
      CacheAfter(s0, acts, t, k - 1);
    }
  }

  lemma SomeTeamWrite(s0: State, acts: seq<Action>, t: Team, k: nat) returns (m: nat)
    requires k <= |acts| && Version(Steps(s0, acts[..k]).cache, t) != Version(s0.cache, t)
    ensures m < k && WritesTeamAt(s0, acts, t, m)
  {
    if forall m :: 0 <= m < k ==> !WritesTeamAt(s0, acts, t, m) {
      NoTeamWrite(s0, acts, t, k);
    }
    m :| 0 <= m < k && WritesTeamAt(s0, acts, t, m);
  }

  // ---------------------------------------------------------------- what is pending

  /** Pending versions are new, this process's own, and in the database. */
  ghost predicate OwnOk(s: State, t: Team) {
    && Version(s.base, t) <= s.Latest(t)
    && (forall v :: (t, v) in s.pending ==> Version(s.base, t) < v <= s.Latest(t) && (t, v) !in s.foreign)
    && (forall v :: (t, v) in s.foreign ==> Version(s.base, t) < v <= s.Latest(t))
  }

  lemma StepKeepsOwnOk(s: State, a: Action, t: Team)
    requires OwnOk(s, t)
    ensures OwnOk(Step(s, a), t)
  {
  }

  lemma {:induction false} EveryRunKeepsOwnOk(rows: map<Team, Models>, acts: seq<Action>, t: Team, k: nat)
    requires k <= |acts|
    ensures OwnOk(Steps(Start(rows), acts[..k]), t)
  {
    if k > 0 {
      EveryRunKeepsOwnOk(rows, acts, t, k - 1);
      StepsAt(Start(rows), acts, k - 1);
      StepKeepsOwnOk(Steps(Start(rows), acts[..k - 1]), acts[k - 1], t);
    }
  }

  lemma SettledAfter(s0: State, acts: seq<Action>, t: Team, v: nat, k: nat)
    requires k < |acts|
    requires var s := Steps(s0, acts[..k]); v <= s.Latest(t) && (t, v) !in s.pending
    ensures var s := Steps(s0, acts[..k + 1]);
            && v <= s.Latest(t) && (t, v) !in s.pending
            && ((t, v) in s.foreign <==> (t, v) in Steps(s0, acts[..k]).foreign)
  {
    StepsAt(s0, acts, k);
  }

  lemma {:induction false} StaysSettled(s0: State, acts: seq<Action>, t: Team, v: nat, i: nat, k: nat)
    requires i <= k <= |acts|
    requires var s := Steps(s0, acts[..i]); v <= s.Latest(t) && (t, v) !in s.pending
    ensures var s := Steps(s0, acts[..k]);
            && v <= s.Latest(t) && (t, v) !in s.pending
            && ((t, v) in s.foreign <==> (t, v) in Steps(s0, acts[..i]).foreign)
    decreases k
  {
    if i < k {
      StaysSettled(s0, acts, t, v, i, k - 1);
      SettledAfter(s0, acts, t, v, k - 1);
    }
  }

  /** A set_team is for an own version, and no later one is for the same. */
  lemma SetTeamOnce(rows: map<Team, Models>, acts: seq<Action>, t: Team, j: nat)
    requires j < |acts| && SetsTeamAt(Start(rows), acts, t, j)
    ensures var v, s := acts[j].version, Steps(Start(rows), acts[..|acts|]);
            Version(s.base, t) < v <= s.Latest(t) && (t, v) !in s.foreign
    ensures forall m :: j < m < |acts| && SetsTeamAt(Start(rows), acts, t, m) ==> acts[m].version != acts[j].version
  {
    var s0, v := Start(rows), acts[j].version;
    EveryRunKeepsOwnOk(rows, acts, t, j);
    SetTeamSettles(s0, acts, t, j);
    StaysSettled(s0, acts, t, v, j + 1, |acts|);
    BaseStays(s0, acts, j);
    BaseStays(s0, acts, |acts|);
    forall m | j < m < |acts| && SetsTeamAt(s0, acts, t, m) ensures acts[m].version != v {
      StaysSettled(s0, acts, t, v, j + 1, m);
    }
  }

  lemma SetTeamSettles(s0: State, acts: seq<Action>, t: Team, j: nat)
    requires j < |acts| && SetsTeamAt(s0, acts, t, j) && OwnOk(Steps(s0, acts[..j]), t)
    ensures var s := Steps(s0, acts[..j + 1]); var v := acts[j].version;
            v <= s.Latest(t) && (t, v) !in s.pending && (t, v) !in s.foreign
  {
    StepsAt(s0, acts, j);
  }

  lemma {:induction false} BaseStays(s0: State, acts: seq<Action>, k: nat)
    requires k <= |acts|
    ensures Steps(s0, acts[..k]).base == s0.base
  {
    if k > 0 {
      BaseStays(s0, acts, k - 1);
      StepsAt(s0, acts, k - 1);
    }
  }

  lemma StepLeavesPending(s: State, a: Action, t: Team, v: nat)
    requires v <= Step(s, a).Latest(t) && (t, v) !in Step(s, a).foreign && (t, v) !in Step(s, a).pending
    ensures || ((t, v) in s.pending && a == SetTeam(t, v))
            || (v <= s.Latest(t) && (t, v) !in s.foreign && (t, v) !in s.pending)
  {
  }

  lemma LeavesPending(s0: State, acts: seq<Action>, t: Team, v: nat, k: nat)
    requires k < |acts|
    requires var s := Steps(s0, acts[..k + 1]); v <= s.Latest(t) && (t, v) !in s.foreign && (t, v) !in s.pending
    ensures var before := Steps(s0, acts[..k]);
            || (SetsTeamAt(s0, acts, t, k) && acts[k].version == v)
            || (v <= before.Latest(t) && (t, v) !in before.foreign && (t, v) !in before.pending)
  {
    StepsAt(s0, acts, k);
    StepLeavesPending(Steps(s0, acts[..k]), acts[k], t, v);
  }

  /** An own commit that is no longer pending had its set_team. */
  lemma {:induction false} SetTeamHappened(s0: State, acts: seq<Action>, t: Team, v: nat, k: nat) returns (i: nat)
    requires k <= |acts| && s0.Latest(t) < v
    requires var s := Steps(s0, acts[..k]); v <= s.Latest(t) && (t, v) !in s.foreign && (t, v) !in s.pending
    ensures i < k && SetsTeamAt(s0, acts, t, i) && acts[i].version == v
  {
    assert acts[..0] == [];
    LeavesPending(s0, acts, t, v, k - 1);
    if SetsTeamAt(s0, acts, t, k - 1) && acts[k - 1].version == v {
      i := k - 1;
    } else {
      i := SetTeamHappened(s0, acts, t, v, k - 1);
    }
  }

  // ---------------------------------------------------------------- the three cases

  /** Nothing is warmed twice. */
  lemma {:induction false} StaysWarmed(s0: State, acts: seq<Action>, i: nat, k: nat)
    requires i <= k <= |acts| && Steps(s0, acts[..i]).phase.Warmed?
    ensures Steps(s0, acts[..k]).phase.Warmed?
    decreases k
  {
    if i < k {
      StaysWarmed(s0, acts, i, k - 1);
      WarmedAfter(s0, acts, k - 1);
    }
  }

  lemma WarmedAfter(s0: State, acts: seq<Action>, k: nat)
    requires k < |acts|
    ensures Steps(s0, acts[..k]).phase.Warmed? || SetsAllAt(s0, acts, k) ==> Steps(s0, acts[..k + 1]).phase.Warmed?
  {
    StepsAt(s0, acts, k);
  }

  lemma SetsAllOnce(s0: State, acts: seq<Action>, j: nat, m: nat)
    requires j < m < |acts| && SetsAllAt(s0, acts, j)
    ensures !SetsAllAt(s0, acts, m)
  {
    WarmedAfter(s0, acts, j);
    StaysWarmed(s0, acts, j + 1, m);
  }

  lemma WarmedLastIsNewest(s0: State, acts: seq<Action>, t: Team)
    requires s0.phase.Idle? && WarmedLast(s0, acts, t)
    ensures Version(Steps(s0, acts[..|acts|]).cache, t) == Steps(s0, acts[..|acts|]).Latest(t)
  {
    var j :| 0 <= j < |acts| && FreshSetAllAt(s0, acts, t, j)
      && forall m :: j < m < |acts| ==> !SetsTeamAt(s0, acts, t, m);
    var w := LastTeamWrite(s0, acts, t, |acts|, j);
    if j < w {
      SetsAllOnce(s0, acts, j, w);
    }
    FreshIffNewest(s0, acts, t, j);
  }

  lemma NewestFromElsewhereWasRead(rows: map<Team, Models>, acts: seq<Action>, t: Team)
    requires var s := Steps(Start(rows), acts[..|acts|]);
             (t, s.Latest(t)) in s.foreign && Version(s.cache, t) == s.Latest(t)
    ensures WarmedLast(Start(rows), acts, t)
  {
    var s0 := Start(rows);
    EveryRunKeepsOwnOk(rows, acts, t, |acts|);
    var m := SomeTeamWrite(s0, acts, t, |acts|);
    var j := LastTeamWrite(s0, acts, t, |acts|, m);
    if SetsTeamAt(s0, acts, t, j) {
      SetTeamOnce(rows, acts, t, j);
    } else {
      FreshIffNewest(s0, acts, t, j);
      forall m | j < m < |acts| ensures !SetsTeamAt(s0, acts, t, m) {
        assert !WritesTeamAt(s0, acts, t, m);
      }
    }
  }

  /** What a write brings is the newest version, or it is a stale one. */
  lemma NewestOrStale(rows: map<Team, Models>, acts: seq<Action>, t: Team, j: nat)
    requires j < |acts| && WritesTeamAt(Start(rows), acts, t, j)
    ensures var top := Steps(Start(rows), acts[..|acts|]).Latest(t);
            VersionWritten(Start(rows), acts, t, j) == top <==> !StaleWriteAt(Start(rows), acts, t, top, j)
  {
    if SetsTeamAt(Start(rows), acts, t, j) {
      SetTeamOnce(rows, acts, t, j);
    } else {
      FreshIffNewest(Start(rows), acts, t, j);
    }
  }

  lemma OvertakenIsStale(rows: map<Team, Models>, acts: seq<Action>, t: Team)
    requires var s := Steps(Start(rows), acts[..|acts|]); Overtaken(Start(rows), acts, t, s.Latest(t))
    ensures var s := Steps(Start(rows), acts[..|acts|]); Version(s.cache, t) != s.Latest(t)
  {
    var s0, top := Start(rows), Steps(Start(rows), acts[..|acts|]).Latest(t);
    var i, j :| 0 <= i < j < |acts| && OvertakenAt(s0, acts, t, top, i, j);
    var w := LastTeamWrite(s0, acts, t, |acts|, j);
    SetTeamOnce(rows, acts, t, i);
    NewestOrStale(rows, acts, t, w);
  }

  lemma StaleIsOvertaken(rows: map<Team, Models>, acts: seq<Action>, t: Team)
    requires var s := Steps(Start(rows), acts[..|acts|]);
             && Start(rows).Latest(t) < s.Latest(t) && (t, s.Latest(t)) !in s.foreign && (t, s.Latest(t)) !in s.pending
             && Version(s.cache, t) != s.Latest(t)
    ensures var s := Steps(Start(rows), acts[..|acts|]); Overtaken(Start(rows), acts, t, s.Latest(t))
  {
    var s0, top := Start(rows), Steps(Start(rows), acts[..|acts|]).Latest(t);
    var i := SetTeamHappened(s0, acts, t, top, |acts|);
    var j := LastTeamWrite(s0, acts, t, |acts|, i);
    NewestOrStale(rows, acts, t, j);
    forall m | j < m < |acts| ensures !FreshSetAllAt(s0, acts, t, m) {
      assert !WritesTeamAt(s0, acts, t, m);
    }
    assert OvertakenAt(s0, acts, t, top, i, j);
  }

  lemma WithoutCommitsRightIffWarmed(rows: map<Team, Models>, acts: seq<Action>, t: Team)
    requires var s := Steps(Start(rows), acts[..|acts|]); Start(rows).Latest(t) == s.Latest(t)
    ensures var s := Steps(Start(rows), acts[..|acts|]);
            Version(s.cache, t) == s.Latest(t) <==> t !in rows || SomeSetAll(Start(rows), acts)
  {
    var s0, n := Start(rows), |acts|;
    forall m | 0 <= m < n ensures !SetsTeamAt(s0, acts, t, m) {
      if SetsTeamAt(s0, acts, t, m) {
        SetTeamOnce(rows, acts, t, m);
        BaseStays(s0, acts, n);
      }
    }
    assert acts[..0] == [];
    LatestGrows(s0, acts, t, 0, n);
    if SomeSetAll(s0, acts) {
      var j :| 0 <= j < n && SetsAllAt(s0, acts, j);
      assert FreshSetAllAt(s0, acts, t, j);
      WarmedLastIsNewest(s0, acts, t);
    } else {
      NoTeamWrite(s0, acts, t, n);
    }
  }

  lemma SameVersionIsRight(s: State, t: Team)
    requires Version(s.cache, t) == s.Latest(t)
    ensures s.Enforced(t) == s.Stored(t)
  {
  }

  /** Exactly when a team's entry ends up being of its newest commit, so that it is enforced as stored,
      once every team write of this process has returned, whatever the order of writes, commits and the
      warm. If the newest commit is another worker's: when the warm read after it and no set_team of
      the team takes effect after its set_all. If it is this process's: unless its set_team is
      overtaken. If there is none since the start: when the team has no row, or the warm ran. */
  lemma WarmedTeamIsRightIff(rows: map<Team, Models>, acts: seq<Action>, t: Team)
    requires Steps(Start(rows), acts).pending == {}
    ensures var s0 := Start(rows); var s := Steps(s0, acts); var top := s.Latest(t);
            && s0.Latest(t) <= top
            && (Version(s.cache, t) == top <==>
                  if (t, top) in s.foreign then WarmedLast(s0, acts, t)
                  else if s0.Latest(t) < top then !Overtaken(s0, acts, t, top)
                  else t !in rows || SomeSetAll(s0, acts))
            && (Version(s.cache, t) == top ==> s.Enforced(t) == s.Stored(t))
  {
    var s0, n := Start(rows), |acts|;
    assert acts[..n] == acts && acts[..0] == [];
    var s := Steps(s0, acts);
    LatestGrows(s0, acts, t, 0, n);
    if (t, s.Latest(t)) in s.foreign {
      if WarmedLast(s0, acts, t) {
        WarmedLastIsNewest(s0, acts, t);
      }
      if Version(s.cache, t) == s.Latest(t) {
        NewestFromElsewhereWasRead(rows, acts, t);
      }
    } else if s0.Latest(t) < s.Latest(t) {
      if Overtaken(s0, acts, t, s.Latest(t)) {
        OvertakenIsStale(rows, acts, t);
      }
      if Version(s.cache, t) != s.Latest(t) {
        StaleIsOvertaken(rows, acts, t);
      }
    } else {
      WithoutCommitsRightIffWarmed(rows, acts, t);
    }
    if Version(s.cache, t) == s.Latest(t) {
      SameVersionIsRight(s, t);
    }
  }

  // ---------------------------------------------------------------- runs that end wrong

  /** The run the unconditional write loses: a restriction committed and applied while the warm's
      read is on its way disappears, and the team is unrestricted although the database says not. */
  lemma WarmCanDropARestriction(models: Models)
    ensures var s := Steps(Start(map[]), [Begin, Select, Commit(0, models), SetTeam(0, 1), SetAll]);
            s.pending == {} && s.phase.Warmed? && s.Enforced(0) == None && s.Stored(0) == Some(models)
  {
    var s0 := Start(map[]);
    var acts := [Begin, Select, Commit(0, models), SetTeam(0, 1), SetAll];
    assert acts[..4] == [Begin, Select, Commit(0, models), SetTeam(0, 1)];
    assert acts[..4][..3] == [Begin, Select, Commit(0, models)];
    assert acts[..4][..3][..2] == [Begin, Select];
    assert acts[..4][..3][..2][..1] == [Begin];
    var s2 := Step(Step(s0, Begin), Select);
    assert Steps(s0, [Begin]) == Step(s0, Begin);
    assert Steps(s0, [Begin, Select]) == s2;
    var s3 := Step(s2, Commit(0, models));
    assert Steps(s0, acts[..4][..3]) == s3;
    var s4 := Step(s3, SetTeam(0, 1));
    assert Steps(s0, acts[..4]) == s4;
    assert (0, 1) in s3.pending;
  }

  lemma StepsSnoc(s: State, acts: seq<Action>, a: Action)
    ensures Steps(s, acts + [a]) == Step(Steps(s, acts), a)
  {
    assert (acts + [a])[..|acts|] == acts;
  }

  /** A state in which only this one team has been written, and nothing is lost. */
  function Plain(models: seq<Models>, cache: map<Team, nat>, pending: set<(Team, nat)>, foreign: set<(Team, nat)>, phase: Phase): State {
    State(if models == [] then map[] else map[0 := models], map[], cache, pending, foreign, phase, {}, {})
  }

  lemma WarmsNothing()
    ensures Steps(Start(map[]), [] + [Begin] + [Select] + [SetAll]) == Plain([], map[], {}, {}, Warmed)
  {
    var s0 := Start(map[]);
    StepsSnoc(s0, [], Begin);
    StepsSnoc(s0, [] + [Begin], Select);
    StepsSnoc(s0, [] + [Begin] + [Select], SetAll);
  }

  lemma FirstCommit(a: Models, phase: Phase)
    ensures Step(Plain([], map[], {}, {}, phase), Commit(0, a)) == Plain([a], map[], {(0, 1)}, {}, phase)
  {
    var none: seq<Models> := [];
    assert none + [a] == [a];
  }

  lemma SecondCommit(a: Models, b: Models, phase: Phase)
    ensures Step(Plain([a], map[], {(0, 1)}, {}, phase), Commit(0, b)) == Plain([a, b], map[], {(0, 1), (0, 2)}, {}, phase)
    ensures Step(Plain([a], map[], {(0, 1)}, {}, phase), ForeignCommit(0, b)) == Plain([a, b], map[], {(0, 1)}, {(0, 2)}, phase)
  {
    assert [a] + [b] == [a, b];
  }

  lemma SetsTheOlderLast(a: Models, b: Models)
    ensures Step(Step(Plain([a, b], map[], {(0, 1), (0, 2)}, {}, Warmed), SetTeam(0, 2)), SetTeam(0, 1)) ==
              Plain([a, b], map[0 := 1], {}, {}, Warmed)
  {
    assert {(0, 1), (0, 2)} - {(0, 2)} - {(0, 1)} == {};
  }

  /** Two writes of a team that reach the cache in the opposite order of their commits leave the older
      one enforced, although the warm lost nothing. */
  lemma RacingTeamWritesLeaveTheOlder(a: Models, b: Models)
    ensures var s := Steps(Start(map[]), [] + [Begin] + [Select] + [SetAll] + [Commit(0, a)] + [Commit(0, b)]
                                         + [SetTeam(0, 2)] + [SetTeam(0, 1)]);
            && s.pending == {} && s.foreign == {} && s.phase.Warmed? && s.lost == {}
            && s.Enforced(0) == Some(a) && s.Stored(0) == Some(b)
  {
    var s0, acts := Start(map[]), [] + [Begin] + [Select] + [SetAll];
    WarmsNothing();
    StepsSnoc(s0, acts, Commit(0, a));
    FirstCommit(a, Warmed);
    StepsSnoc(s0, acts + [Commit(0, a)], Commit(0, b));
    SecondCommit(a, b, Warmed);
    StepsSnoc(s0, acts + [Commit(0, a)] + [Commit(0, b)], SetTeam(0, 2));
    StepsSnoc(s0, acts + [Commit(0, a)] + [Commit(0, b)] + [SetTeam(0, 2)], SetTeam(0, 1));
    SetsTheOlderLast(a, b);
  }

  lemma OwnThenAnothers(a: Models, b: Models)
    ensures Steps(Start(map[]), [] + [Commit(0, a)] + [ForeignCommit(0, b)]) == Plain([a, b], map[], {(0, 1)}, {(0, 2)}, Idle)
  {
    var s0 := Start(map[]);
    StepsSnoc(s0, [], Commit(0, a));
    FirstCommit(a, Idle);
    StepsSnoc(s0, [] + [Commit(0, a)], ForeignCommit(0, b));
    SecondCommit(a, b, Idle);
  }

  lemma WarmsThenSetsTheOlder(a: Models, b: Models)
    ensures Step(Step(Step(Step(Plain([a, b], map[], {(0, 1)}, {(0, 2)}, Idle), Begin), Select), SetAll), SetTeam(0, 1)) ==
              Plain([a, b], map[0 := 1], {}, {(0, 2)}, Warmed)
  {
    var s := Step(Step(Plain([a, b], map[], {(0, 1)}, {(0, 2)}, Idle), Begin), Select);
    assert Counts(map[0 := [a, b]]) == map[0 := 2];
    assert s == Plain([a, b], map[], {(0, 1)}, {(0, 2)}, HasRead(map[0 := 2]));
    assert Step(s, SetAll) == Plain([a, b], map[0 := 2], {(0, 1)}, {(0, 2)}, Warmed);
  }

  /** In commit order, with nothing written between the warm's read and its set_all and nothing lost: a
      set_team after the warm still puts this process's older entry over another worker's newer one. */
  lemma LateSetTeamHidesAnotherWorkers(a: Models, b: Models)
    ensures var s := Steps(Start(map[]), [] + [Commit(0, a)] + [ForeignCommit(0, b)] + [Begin] + [Select] + [SetAll]
                                         + [SetTeam(0, 1)]);
            && s.pending == {} && s.phase.Warmed? && s.lost == {} && s.landed == {}
            && s.Enforced(0) == Some(a) && s.Stored(0) == Some(b)
  {
    var s0, c := Start(map[]), [] + [Commit(0, a)] + [ForeignCommit(0, b)];
    OwnThenAnothers(a, b);
    StepsSnoc(s0, c, Begin);
    StepsSnoc(s0, c + [Begin], Select);
    StepsSnoc(s0, c + [Begin] + [Select], SetAll);
    StepsSnoc(s0, c + [Begin] + [Select] + [SetAll], SetTeam(0, 1));
    WarmsThenSetsTheOlder(a, b);
  }
}
