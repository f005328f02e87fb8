/** The background self-heal of a failed policy bootstrap, running between live admin PUTs
    (backend/src/gatekey/main.py).

    Every await of the program is a point where something else may happen, so the program is a
    state machine and a run is any list of actions. An action that is not enabled leaves the
    state as it is; the statements below therefore quantify over all lists of actions.

    Policies are told apart by the order in which the database committed them: version `v` is
    `history[v]`, and `base` is the newest version from before this process took requests. */
module SelfHeal {
  import opened PolicyCache

  datatype Config = Config(maxAttempts: nat, initial: real, ceiling: real) {
    predicate Valid() {
      0.0 <= initial && 0.0 <= ceiling
    }
  }

  const SHIPPED := Config(5, 2.0, 30.0)
  const READ_TIMEOUT := 5.0

  datatype Outcome = NotScheduled | Healed | Superseded | Exhausted | Cancelled

  datatype Healer =
    | Sleeping(attempt: nat, backoff: real)
    | Reading(attempt: nat, backoff: real, expected: nat)
    | HasRead(attempt: nat, backoff: real, expected: nat, version: nat)
    | Stopped(outcome: Outcome)

  /** Who wrote the snapshot that is in the cache now. */
  datatype Writer = Nobody | FromPut(version: nat) | FromRead(version: nat)

  datatype State = State(
    config: Config,
    base: nat,
    history: seq<Snapshot>,
    foreign: set<nat>, // committed by another worker process, which has its own cache
    pending: set<nat>, // committed by a PUT of this process that has not called cache.set yet
    cache: CacheValue,
    writer: Writer,
    healer: Healer,
    sleeps: seq<real>, // the backoffs waited for, the current one included
    loads: nat)
  {
    /** The version of the policy that the database holds. */
    function Top(): int {
      |history| - 1
    }

    /** The policy that the database holds. */
    function Stored(): Snapshot {
      if history == [] then UNCONFIGURED else history[|history| - 1]
    }

    /** The version that the cache holds; -1 is the permissive default. */
    function CachedVersion(): int {
      match writer
      case Nobody => -1
      case FromPut(v) => v
      case FromRead(v) => v
    }

    predicate Quiet() {
      pending == {} && healer.Stopped?
    }
  }

  datatype Action =
    | Commit(policy: Snapshot)         // a PUT of this process commits its upsert
    | ForeignCommit(policy: Snapshot)  // another worker's PUT commits
    | CacheSet(version: nat)           // the PUT that committed `version` calls cache.set
    | Wake                             // the sleep is over: capture the generation, issue the read
    | Select                           // the database executes that read
    | ReadFails                        // the read raises or times out, executed or not
    | Resume                           // the read's result arrives: compare-and-set, then return
    | Cancel                           // shutdown

  predicate ByEnvironment(a: Action) {
    a.Commit? || a.ForeignCommit? || a.CacheSet?
  }

  function Min(a: real, b: real): real {
    if a < b then a else b
  }

  function FirstSleep(config: Config): Healer {
    if config.maxAttempts == 0 then Stopped(Exhausted) else Sleeping(1, config.initial)
  }

  /** The process has just tried its one-shot bootstrap. */
  function Start(config: Config, history: seq<Snapshot>, bootstrapped: bool): State
    requires history != []
  {
    var top := |history| - 1;
    if bootstrapped then
      State(config, top, history, {}, {}, CacheValue(history[top], 1), FromRead(top), Stopped(NotScheduled), [], 0)
    else
      State(config, top, history, {}, {}, CacheValue(UNCONFIGURED, 0), Nobody, FirstSleep(config),
            if config.maxAttempts == 0 then [] else [config.initial], 0)
  }

  function Step(s: State, a: Action): State {
    match a
    case Commit(p) =>
      s.(history := s.history + [p], pending := s.pending + {|s.history|})
    case ForeignCommit(p) =>
      s.(history := s.history + [p], foreign := s.foreign + {|s.history|})
    case CacheSet(v) =>
      if v in s.pending && v < |s.history| then
        s.(pending := s.pending - {v},
           cache := CacheValue(s.history[v], s.cache.generation + 1),
           writer := FromPut(v))
      else s
    case Wake =>
      if s.healer.Sleeping? then
        s.(healer := Reading(s.healer.attempt, s.healer.backoff, s.cache.generation), loads := s.loads + 1)
      else s
    case Select =>
      if s.healer.Reading? && s.history != [] then
        s.(healer := HasRead(s.healer.attempt, s.healer.backoff, s.healer.expected, |s.history| - 1))
      else s
    case ReadFails =>
      if s.healer.Reading? || s.healer.HasRead? then Retry(s) else s
    case Resume =>
      if s.healer.HasRead? && s.healer.version < |s.history| then
        if s.cache.generation == s.healer.expected then
          s.(cache := CacheValue(s.history[s.healer.version], s.cache.generation + 1),
             writer := FromRead(s.healer.version),
             healer := Stopped(Healed))
        else
          s.(healer := Stopped(Superseded))
      else s
    case Cancel =>
      if s.healer.Stopped? then s else s.(healer := Stopped(Cancelled))
  }

  function Retry(s: State): State
    requires s.healer.Reading? || s.healer.HasRead?
  {
    var backoff := Min(s.healer.backoff * 2.0, s.config.ceiling);
    if s.healer.attempt >= s.config.maxAttempts then
      s.(healer := Stopped(Exhausted))
    else
      s.(healer := Sleeping(s.healer.attempt + 1, backoff), sleeps := s.sleeps + [backoff])
  }

  function Steps(s: State, acts: seq<Action>): State {
    if acts == [] then s
    else Step(Steps(s, acts[..|acts| - 1]), acts[|acts| - 1])
  }

  lemma StepsSnoc(s: State, acts: seq<Action>, a: Action)
    ensures Steps(s, acts + [a]) == Step(Steps(s, acts), a)
  {
    assert (acts + [a])[..|acts|] == acts;
  }

  // ---------------------------------------------------------------- the backoff schedule

  function Pow2(n: nat): nat {
    if n == 0 then 1 else 2 * Pow2(n - 1)
  }

  /** The i-th sleep (from 0) in closed form. The ceiling is not applied to the first one. */
  function Delay(config: Config, i: nat): real {
    if i == 0 then config.initial else Min(config.initial * Pow2(i) as real, config.ceiling)
  }

  lemma DelayNext(config: Config, i: nat)
    requires config.Valid()
    ensures Delay(config, i + 1) == Min(Delay(config, i) * 2.0, config.ceiling)
  {
    var p := Pow2(i) as real;
    assert Pow2(i + 1) as real == p * 2.0;
    assert config.initial * (p * 2.0) == (config.initial * p) * 2.0;
    if i == 0 {
      assert p == 1.0;
    }
  }

  // ---------------------------------------------------------------- what every step keeps

  /** Every version above `floor` still has its cache.set to come, or is another worker's. */
  ghost predicate Covered(s: State, floor: int) {
    forall w :: floor < w < |s.history| ==> w in s.foreign || w in s.pending
  }

  ghost predicate VersionsOk(s: State) {
    && s.base < |s.history|
    && (forall w :: w in s.pending ==> s.base < w < |s.history| && w !in s.foreign)
    && (forall w :: w in s.foreign ==> s.base < w < |s.history|)
  }

  /** The cache holds a committed version or the default; what a read wrote has only PUTs that
      are still to be applied above it. */
  ghost predicate CacheOk(s: State)
    requires VersionsOk(s)
  {
    && s.CachedVersion() <= s.Top()
    && (match s.writer
        case Nobody => s.cache.snapshot == UNCONFIGURED && Covered(s, s.base)
        case FromPut(v) => s.cache.snapshot == s.history[v] && s.base < v && v !in s.pending && v !in s.foreign
        case FromRead(v) => s.cache.snapshot == s.history[v] && s.base <= v && Covered(s, v))
  }

  /** A read whose captured generation is still current is at least as new as the cache. */
  ghost predicate HealerOk(s: State) {
    match s.healer
    case Sleeping(_, _) => !s.writer.FromRead?
    case Reading(_, _, g) => !s.writer.FromRead? && g <= s.cache.generation
    case HasRead(_, _, g, v) =>
      && !s.writer.FromRead? && g <= s.cache.generation && s.base <= v < |s.history|
      && (g == s.cache.generation ==> s.CachedVersion() <= v && Covered(s, v))
      && (g < s.cache.generation ==> s.writer.FromPut?)
    case Stopped(o) =>
      && (o.Superseded? ==> s.writer.FromPut?)
      && (o.Healed? || o.NotScheduled? ==> !s.writer.Nobody?)
      && (o.Exhausted? || o.Cancelled? ==> !s.writer.FromRead?)
  }

  ghost predicate Attempting(s: State, attempt: nat, backoff: real) {
    1 <= attempt == |s.sleeps| <= s.config.maxAttempts && backoff == s.sleeps[attempt - 1]
  }

  ghost predicate ScheduleOk(s: State) {
    && s.config.Valid()
    && |s.sleeps| <= s.config.maxAttempts
    && s.loads <= |s.sleeps|
    && (forall i :: 0 <= i < |s.sleeps| ==> s.sleeps[i] == Delay(s.config, i))
    && (match s.healer
        case Sleeping(a, b) => Attempting(s, a, b) && s.loads == a - 1
        case Reading(a, b, _) => Attempting(s, a, b) && s.loads == a
        case HasRead(a, b, _, _) => Attempting(s, a, b) && s.loads == a
        case Stopped(_) => true)
  }

  /** A generation above the captured one means some PUT wrote. */
  ghost predicate GenerationOk(s: State) {
    s.writer.Nobody? ==> s.cache.generation == 0
  }

  ghost predicate Inv(s: State) {
    VersionsOk(s) && CacheOk(s) && HealerOk(s) && ScheduleOk(s) && GenerationOk(s)
  }

  lemma EnvironmentKeepsInv(s: State, a: Action)
    requires Inv(s) && ByEnvironment(a)
    ensures Inv(Step(s, a))
  {
  }

  lemma HealerKeepsInv(s: State, a: Action)
    requires Inv(s) && (a.Wake? || a.Select? || a.Resume? || a.Cancel?)
    ensures Inv(Step(s, a))
  {
  }

  lemma RetryKeepsInv(s: State)
    requires Inv(s)
    ensures Inv(Step(s, ReadFails))
  {
    if s.healer.Reading? || s.healer.HasRead? {
      DelayNext(s.config, s.healer.attempt - 1);
    }
  }

  lemma StepKeepsInv(s: State, a: Action)
    requires Inv(s)
    ensures Inv(Step(s, a))
  {
    if ByEnvironment(a) {
      EnvironmentKeepsInv(s, a);
    } else if a.ReadFails? {
      RetryKeepsInv(s);
    } else {
      HealerKeepsInv(s, a);
    }
  }

  lemma {:induction false} EveryRunKeepsInv(config: Config, history: seq<Snapshot>, boot: bool, acts: seq<Action>)
    requires config.Valid() && history != []
    ensures Inv(Steps(Start(config, history, boot), acts))
  {
    if acts == [] {
    } else {
      EveryRunKeepsInv(config, history, boot, acts[..|acts| - 1]);
      StepKeepsInv(Steps(Start(config, history, boot), acts[..|acts| - 1]), acts[|acts| - 1]);
    }
  }

  // ---------------------------------------------------------------- main results

  /** In every interleaving, nothing but a PUT's own cache.set can make the cached policy older,
      and the cache never runs ahead of the database. */
  lemma HealNeverRegresses(config: Config, history: seq<Snapshot>, boot: bool, acts: seq<Action>, a: Action)
    requires config.Valid() && history != []
    ensures var s := Steps(Start(config, history, boot), acts);
            var t := Step(s, a);
            && t.CachedVersion() <= t.Top()
            && (!a.CacheSet? ==> s.CachedVersion() <= t.CachedVersion())
            && (0 <= t.CachedVersion() ==> t.cache.snapshot == t.history[t.CachedVersion()])
            && (t.CachedVersion() < 0 ==> t.cache.snapshot == UNCONFIGURED)
  {
    EveryRunKeepsInv(config, history, boot, acts);
    StepKeepsInv(Steps(Start(config, history, boot), acts), a);
  }

  /** What a read-back without the generation check would do at the same moment. */
  function ResumeUnguarded(s: State): State
    requires s.healer.HasRead? && s.healer.version < |s.history|
  {
    s.(cache := CacheValue(s.history[s.healer.version], s.cache.generation + 1),
       writer := FromRead(s.healer.version),
       healer := Stopped(Healed))
  }

  /** The run that the guard exists for: a PUT commits and reaches the cache while the read is
      on its way. The unguarded write would put the older policy back. */
  lemma UnguardedWriteLosesAPut(p: Snapshot, q: Snapshot)
    ensures var s := Steps(Start(SHIPPED, [p], false), [Wake, Select, Commit(q), CacheSet(1)]);
            && s.healer.HasRead? && s.healer.version < |s.history|
            && ResumeUnguarded(s).CachedVersion() < s.CachedVersion() == s.Top()
            && Step(s, Resume).CachedVersion() == s.Top()
            && Step(s, Resume).healer == Stopped(Superseded)
  {
    var s0 := Start(SHIPPED, [p], false);
    var a := [Wake, Select, Commit(q), CacheSet(1)];
    assert a[..3] == [Wake, Select, Commit(q)];
    assert a[..3][..2] == [Wake, Select];
    assert a[..3][..2][..1] == [Wake];
    assert a[..3][..2][..1][..0] == [];
    var s1 := Step(s0, Wake);
    var s2 := Step(s1, Select);
    var s3 := Step(s2, Commit(q));
    assert s3.history == [p, q];
    assert Steps(s0, a[..3][..2][..1]) == s1;
    assert Steps(s0, a[..3][..2]) == s2;
    assert Steps(s0, a[..3]) == s3;
  }

  lemma StepsAt(s0: State, acts: seq<Action>, k: nat)
    requires k < |acts|
    ensures Steps(s0, acts[..k + 1]) == Step(Steps(s0, acts[..k]), acts[k])
  {
    assert acts[..k + 1] == acts[..k] + [acts[k]];
    StepsSnoc(s0, acts[..k], acts[k]);
  }

  /** The j-th action is a PUT's cache.set, and takes effect. */
  predicate SetsAt(s0: State, acts: seq<Action>, j: nat)
    requires j < |acts|
  {
    var s := Steps(s0, acts[..j]);
    acts[j].CacheSet? && acts[j].version in s.pending && acts[j].version < |s.history|
  }

  /** The j-th action is the healer's compare-and-set, and takes effect. */
  predicate HealsAt(s0: State, acts: seq<Action>, j: nat)
    requires j < |acts|
  {
    var s := Steps(s0, acts[..j]);
    acts[j].Resume? && s.healer.HasRead? && s.healer.version < |s.history| && s.cache.generation == s.healer.expected
  }

  predicate WritesAt(s0: State, acts: seq<Action>, j: nat)
    requires j < |acts|
  {
    SetsAt(s0, acts, j) || HealsAt(s0, acts, j)
  }

  /** The cache was written last by the j-th action. */
  ghost predicate WrittenBy(s0: State, acts: seq<Action>, j: nat, k: nat)
    requires j < k <= |acts|
  {
    && WritesAt(s0, acts, j) && (forall m :: j < m < k ==> !WritesAt(s0, acts, m))
    && Steps(s0, acts[..k]).writer ==
         if SetsAt(s0, acts, j) then FromPut(acts[j].version) else FromRead(Steps(s0, acts[..j]).healer.version)
  }

  lemma WriterAfter(s0: State, acts: seq<Action>, k: nat)
    requires k < |acts|
    ensures Steps(s0, acts[..k + 1]).writer ==
              if SetsAt(s0, acts, k) then FromPut(acts[k].version)
              else if HealsAt(s0, acts, k) then FromRead(Steps(s0, acts[..k]).healer.version)
              else Steps(s0, acts[..k]).writer
  {
    StepsAt(s0, acts, k);
  }

  lemma StillWrittenBy(s0: State, acts: seq<Action>, j: nat, k: nat)
    requires j < k < |acts| && WrittenBy(s0, acts, j, k) && !WritesAt(s0, acts, k)
    requires Steps(s0, acts[..k + 1]).writer == Steps(s0, acts[..k]).writer
    ensures WrittenBy(s0, acts, j, k + 1)
  {
  }

  lemma {:induction false} LastCacheWrite(s0: State, acts: seq<Action>, k: nat, m: nat) returns (j: nat)
    requires m < k <= |acts| && WritesAt(s0, acts, m)
    ensures m <= j < k && WrittenBy(s0, acts, j, k)
    decreases k
  {
    WriterAfter(s0, acts, k - 1);
    if WritesAt(s0, acts, k - 1) {
      j := k - 1;
    } else {
      j := LastCacheWrite(s0, acts, k - 1, m);
      StillWrittenBy(s0, acts, j, k - 1);
    }
  }

  lemma {:induction false} NoCacheWrite(s0: State, acts: seq<Action>, k: nat)
    requires k <= |acts| && forall m :: 0 <= m < k ==> !WritesAt(s0, acts, m)
    ensures Steps(s0, acts[..k]).writer == s0.writer
  {
    if k > 0 {
      NoCacheWrite(s0, acts, k - 1);
      WriterAfter(s0, acts, k - 1);
      assert !WritesAt(s0, acts, k - 1);
    }
  }

  /** A version that leaves the pending ones, or comes without being among them. */
  lemma LeavesPending(s0: State, acts: seq<Action>, k: nat, v: nat)
    requires k < |acts|
    requires var s := Steps(s0, acts[..k + 1]); v < |s.history| && v !in s.foreign && v !in s.pending
    ensures var before := Steps(s0, acts[..k]);
            || (SetsAt(s0, acts, k) && acts[k].version == v)
            || (v < |before.history| && v !in before.foreign && v !in before.pending)
  {
    StepsAt(s0, acts, k);
  }

  /** A PUT of this process that is no longer pending has called cache.set. */
  lemma {:induction false} SetHappened(s0: State, acts: seq<Action>, k: nat, v: nat)
    requires k <= |acts| && |s0.history| <= v
    requires var s := Steps(s0, acts[..k]); v < |s.history| && v !in s.foreign && v !in s.pending
    ensures exists i :: 0 <= i < k && SetsAt(s0, acts, i) && acts[i].version == v
  {
    if k > 0 {
      LeavesPending(s0, acts, k - 1, v);
      if !(SetsAt(s0, acts, k - 1) && acts[k - 1].version == v) {
        SetHappened(s0, acts, k - 1, v);
      }
    }
  }

  /** And calls it once. */
  lemma {:induction false} NoLongerPending(s0: State, acts: seq<Action>, i: nat, k: nat)
    requires i < k <= |acts| && SetsAt(s0, acts, i)
    ensures var s := Steps(s0, acts[..k]); acts[i].version < |s.history| && acts[i].version !in s.pending
    decreases k
  {
    StepsAt(s0, acts, k - 1);
    if i < k - 1 {
      NoLongerPending(s0, acts, i, k - 1);
    }
  }

  lemma StopsForGood(s0: State, acts: seq<Action>, k: nat)
    requires k < |acts|
    ensures Steps(s0, acts[..k]).healer.Stopped? ==> Steps(s0, acts[..k + 1]).healer.Stopped?
  {
    StepsAt(s0, acts, k);
  }

  lemma {:induction false} StaysStopped(s0: State, acts: seq<Action>, j: nat, k: nat)
    requires j <= k <= |acts| && Steps(s0, acts[..j]).healer.Stopped?
    ensures Steps(s0, acts[..k]).healer.Stopped?
    decreases k
  {
    if j < k {
      StaysStopped(s0, acts, j, k - 1);
      StopsForGood(s0, acts, k - 1);
    }
  }

  lemma HealsOnce(s0: State, acts: seq<Action>, j: nat, m: nat)
    requires j < m < |acts| && HealsAt(s0, acts, j)
    ensures !HealsAt(s0, acts, m)
  {
    StepsAt(s0, acts, j);
    StaysStopped(s0, acts, j + 1, m);
  }

  /** Some PUT older than `top` sets the cache after the PUT of `top` did, and no heal follows. */
  ghost predicate OvertakenAt(s0: State, acts: seq<Action>, top: nat, i: nat, j: nat)
    requires i < j < |acts|
  {
    && SetsAt(s0, acts, i) && acts[i].version == top
    && SetsAt(s0, acts, j) && acts[j].version < top
    && forall m :: j < m < |acts| ==> !HealsAt(s0, acts, m)
  }

  ghost predicate Overtaken(s0: State, acts: seq<Action>, top: nat) {
    exists i, j :: 0 <= i < j < |acts| && OvertakenAt(s0, acts, top, i, j)
  }

  /** The healer put version `top` into the cache, and no PUT set it after that. */
  ghost predicate HealedTo(s0: State, acts: seq<Action>, top: int) {
    exists j :: 0 <= j < |acts| && HealsAt(s0, acts, j) && Steps(s0, acts[..j]).healer.version == top
      && forall m :: j < m < |acts| ==> !SetsAt(s0, acts, m)
  }

  lemma OvertakenIsStale(s0: State, acts: seq<Action>, top: nat)
    requires Overtaken(s0, acts, top)
    ensures Steps(s0, acts).writer.FromPut? && Steps(s0, acts).writer.version != top
  {
    var n := |acts|;
    assert acts[..n] == acts;
    var i, j :| 0 <= i < j < n && OvertakenAt(s0, acts, top, i, j);
    var w := LastCacheWrite(s0, acts, n, j);
    NoLongerPending(s0, acts, i, w);
  }

  /** Some PUT set the cache to `top`; what is there now was written then or later. */
  lemma TopWasSet(s0: State, acts: seq<Action>, top: nat) returns (i: nat, j: nat)
    requires |s0.history| <= top
    requires var s := Steps(s0, acts); top < |s.history| && top !in s.foreign && top !in s.pending
    ensures i <= j < |acts| && SetsAt(s0, acts, i) && acts[i].version == top
    ensures WrittenBy(s0, acts, j, |acts|)
  {
    var n := |acts|;
    assert acts[..n] == acts;
    SetHappened(s0, acts, n, top);
    i :| 0 <= i < n && SetsAt(s0, acts, i) && acts[i].version == top;
    j := LastCacheWrite(s0, acts, n, i);
  }

  lemma StaleIsOvertaken(s0: State, acts: seq<Action>, top: nat)
    requires |s0.history| <= top
    requires var s := Steps(s0, acts); top < |s.history| && top !in s.foreign && top !in s.pending
    requires Steps(s0, acts).writer.FromPut? ==> Steps(s0, acts).writer.version < top
    ensures Steps(s0, acts).writer.FromPut? ==> Overtaken(s0, acts, top)
    ensures !Steps(s0, acts).writer.Nobody?
  {
    assert acts[..|acts|] == acts;
    var i, j := TopWasSet(s0, acts, top);
    if SetsAt(s0, acts, j) {
      forall m | j < m < |acts| ensures !HealsAt(s0, acts, m) {
        assert !WritesAt(s0, acts, m);
      }
      assert OvertakenAt(s0, acts, top, i, j);
    }
  }

  /** A heal that no PUT follows is the last write. */
  lemma NothingAfterHeal(s0: State, acts: seq<Action>, j: nat, w: nat)
    requires j <= w < |acts| && HealsAt(s0, acts, j) && WritesAt(s0, acts, w)
    requires forall m :: j < m < |acts| ==> !SetsAt(s0, acts, m)
    ensures j == w
  {
    if j < w {
      HealsOnce(s0, acts, j, w);
    }
  }

  lemma HealedToWrites(s0: State, acts: seq<Action>, top: nat)
    requires HealedTo(s0, acts, top)
    ensures Steps(s0, acts).writer == FromRead(top)
  {
    var n := |acts|;
    assert acts[..n] == acts;
    var j :| 0 <= j < n && HealsAt(s0, acts, j) && Steps(s0, acts[..j]).healer.version == top
      && forall m :: j < m < n ==> !SetsAt(s0, acts, m);
    var w := LastCacheWrite(s0, acts, n, j);
    NothingAfterHeal(s0, acts, j, w);
  }

  lemma ReadWritesAreHeals(s0: State, acts: seq<Action>)
    requires Steps(s0, acts).writer.FromRead? && Steps(s0, acts).writer != s0.writer
    ensures HealedTo(s0, acts, Steps(s0, acts).writer.version)
  {
    var n := |acts|;
    assert acts[..n] == acts;
    var m := SomeCacheWrite(s0, acts, n);
    var j := LastCacheWrite(s0, acts, n, m);
    forall m | j < m < n ensures !SetsAt(s0, acts, m) {
      assert !WritesAt(s0, acts, m);
    }
  }

  lemma SomeCacheWrite(s0: State, acts: seq<Action>, k: nat) returns (m: nat)
    requires k <= |acts| && Steps(s0, acts[..k]).writer != s0.writer
    ensures m < k && WritesAt(s0, acts, m)
  {
    if forall m :: 0 <= m < k ==> !WritesAt(s0, acts, m) {
      NoCacheWrite(s0, acts, k);
    }
    m :| 0 <= m < k && WritesAt(s0, acts, m);
  }

  /** Exactly when the cache ends up right, once every PUT has returned and the healer has stopped.
      If the newest policy is a PUT's of this process: unless an older PUT set the cache after that
      PUT did and no heal came later. If it is another worker's: when the healer read it and no PUT
      set the cache after the heal. If nothing was committed: when the start or the healer could
      read the policy. */
  lemma QuietCacheIsLatestIff(config: Config, history: seq<Snapshot>, boot: bool, acts: seq<Action>)
    requires config.Valid() && history != []
    requires Steps(Start(config, history, boot), acts).Quiet()
    ensures var s0 := Start(config, history, boot); var s := Steps(s0, acts);
            && 0 <= s.base <= s.Top()
            && (s.CachedVersion() == s.Top() <==>
                  if s.Top() in s.foreign then HealedTo(s0, acts, s.Top())
                  else if s.base < s.Top() then !Overtaken(s0, acts, s.Top())
                  else boot || HealedTo(s0, acts, s.Top()))
  {
    var s0 := Start(config, history, boot);
    var s := Steps(s0, acts);
    EveryRunKeepsInv(config, history, boot, acts);
    StepsKeepBase(s0, acts);
    if s.Top() !in s.foreign && s.base < s.Top() {
      if Overtaken(s0, acts, s.Top()) {
        OvertakenIsStale(s0, acts, s.Top());
      } else if s.CachedVersion() != s.Top() {
        QuietCacheIsOlder(s);
        StaleIsOvertaken(s0, acts, s.Top());
      }
    } else {
      if HealedTo(s0, acts, s.Top()) {
        HealedToWrites(s0, acts, s.Top());
      }
      if s.writer.FromRead? && s.writer != s0.writer {
        ReadWritesAreHeals(s0, acts);
      }
      OnlyReadsWithoutPuts(s);
      if boot && s.base == s.Top() {
        BootWriterStays(s0, acts);
      }
    }
  }

  lemma QuietCacheIsOlder(s: State)
    requires Inv(s) && s.Quiet() && s.Top() !in s.foreign && s.CachedVersion() != s.Top()
    ensures !s.writer.FromRead? && (s.writer.FromPut? ==> s.writer.version < s.Top())
  {
    var v := s.CachedVersion();
    assert Covered(s, v) && v < s.Top() ==> s.Top() in s.foreign || s.Top() in s.pending;
  }

  /** Nothing but a read can have put another worker's policy, or the first one, into the cache. */
  lemma OnlyReadsWithoutPuts(s: State)
    requires Inv(s) && (s.Top() in s.foreign || s.base == s.Top())
    ensures s.CachedVersion() == s.Top() ==> s.writer == FromRead(s.Top())
    ensures s.base == s.Top() && s.writer.FromRead? ==> s.writer.version == s.Top()
    ensures s.base == s.Top() ==> !s.writer.FromPut?
  {
  }

  lemma BootWriterStays(s0: State, acts: seq<Action>)
    requires s0.writer.FromRead? && s0.healer.Stopped?
    ensures !Steps(s0, acts).writer.Nobody?
    ensures Steps(s0, acts).writer.FromRead? ==> Steps(s0, acts).writer == s0.writer
  {
    if acts != [] {
      var k := |acts| - 1;
      BootWriterStays(s0, acts[..k]);
      assert acts[..k][..0] == [] && acts[..0] == [];
      StaysStopped(s0, acts, 0, k);
    }
  }

  lemma {:induction false} StepsKeepBase(s: State, acts: seq<Action>)
    ensures Steps(s, acts).base == s.base && |Steps(s, acts).history| >= |s.history|
  {
    if acts != [] {
      StepsKeepBase(s, acts[..|acts| - 1]);
    }
  }

  /** The j-th action is the healer's, captures the generation and issues a read. */
  predicate WakesAt(s0: State, acts: seq<Action>, j: nat)
    requires j < |acts|
  {
    acts[j].Wake? && Steps(s0, acts[..j]).healer.Sleeping?
  }

  /** What holds of the read issued by the w-th action while it is under way. */
  ghost predicate Untouched(s0: State, acts: seq<Action>, w: nat, k: nat)
    requires w < k <= |acts|
  {
    var s := Steps(s0, acts[..k]);
    s.healer.Reading? || s.healer.HasRead? ==>
      && s.healer.expected <= s.cache.generation
      && (s.healer.expected == s.cache.generation <==> forall m :: w < m < k ==> !SetsAt(s0, acts, m))
  }

  /** Nothing but a wake starts a read, and nothing but a cache.set moves the generation under it. */
  lemma ReadGoesOn(s0: State, acts: seq<Action>, k: nat)
    requires k < |acts| && !WakesAt(s0, acts, k)
    ensures var s, after := Steps(s0, acts[..k]), Steps(s0, acts[..k + 1]);
            after.healer.Reading? || after.healer.HasRead? ==>
              && (s.healer.Reading? || s.healer.HasRead?) && after.healer.expected == s.healer.expected
              && after.cache.generation == s.cache.generation + if SetsAt(s0, acts, k) then 1 else 0
  {
    StepsAt(s0, acts, k);
  }

  lemma WakeCaptures(s0: State, acts: seq<Action>, w: nat)
    requires w < |acts| && WakesAt(s0, acts, w)
    ensures Untouched(s0, acts, w, w + 1)
  {
    StepsAt(s0, acts, w);
  }

  lemma {:induction false} StaysUntouched(s0: State, acts: seq<Action>, w: nat, k: nat)
    requires w < k <= |acts| && WakesAt(s0, acts, w) && forall m :: w < m < k ==> !WakesAt(s0, acts, m)
    ensures Untouched(s0, acts, w, k)
    decreases k
  {
    if k == w + 1 {
      WakeCaptures(s0, acts, w);
    } else {
      StaysUntouched(s0, acts, w, k - 1);
      ReadGoesOn(s0, acts, k - 1);
    }
  }

  /** A read's result is written back exactly when no PUT has set the cache since the wake before it. */
  lemma HealsIffUntouched(s0: State, acts: seq<Action>, w: nat, k: nat)
    requires w < k < |acts| && WakesAt(s0, acts, w) && forall m :: w < m < k ==> !WakesAt(s0, acts, m)
    requires acts[k].Resume? && Steps(s0, acts[..k]).healer.HasRead?
    requires Steps(s0, acts[..k]).healer.version < |Steps(s0, acts[..k]).history|
    ensures HealsAt(s0, acts, k) <==> forall m :: w < m < k ==> !SetsAt(s0, acts, m)
  {
    StaysUntouched(s0, acts, w, k);
  }

  /** Two PUTs that reach the cache in the opposite order of their commits leave the older policy
      there, and the superseded healer stops without repairing it. */
  lemma RacingPutsCanLeaveTheCacheStale(p: Snapshot, q: Snapshot, r: Snapshot)
    ensures var s := Steps(Start(SHIPPED, [p], false),
                          [Wake, Select] + [Commit(q), Commit(r)] + [CacheSet(2), CacheSet(1)] + [Resume]);
            s.Quiet() && s.healer.outcome == Superseded && s.CachedVersion() == 1 < s.Top()
  {
    var s0 := Start(SHIPPED, [p], false);
    var s2 := Step(Step(s0, Wake), Select);
    var s4 := Step(Step(s2, Commit(q)), Commit(r));
    assert s4.history == [p, q, r];
    StepsSnoc(s0, [], Wake);
    StepsSnoc(s0, [Wake], Select);
    StepsSnoc(s0, [Wake, Select], Commit(q));
    StepsSnoc(s0, [Wake, Select] + [Commit(q)], Commit(r));
    StepsSnoc(s0, [Wake, Select] + [Commit(q), Commit(r)], CacheSet(2));
    StepsSnoc(s0, [Wake, Select] + [Commit(q), Commit(r)] + [CacheSet(2)], CacheSet(1));
    StepsSnoc(s0, [Wake, Select] + [Commit(q), Commit(r)] + [CacheSet(2), CacheSet(1)], Resume);
    assert [] + [Wake] == [Wake] && [Wake] + [Select] == [Wake, Select];
    assert [Wake, Select] + [Commit(q)] + [Commit(r)] == [Wake, Select] + [Commit(q), Commit(r)];
    assert [Wake, Select] + [Commit(q), Commit(r)] + [CacheSet(2)] + [CacheSet(1)]
        == [Wake, Select] + [Commit(q), Commit(r)] + [CacheSet(2), CacheSet(1)];
  }

  /** PUTs call cache.set in the order in which they committed. */
  ghost predicate InOrder(s: State, acts: seq<Action>) {
    acts == [] ||
    (var before := Steps(s, acts[..|acts| - 1]);
     var a := acts[|acts| - 1];
     && InOrder(s, acts[..|acts| - 1])
     && (a.CacheSet? && a.version in before.pending ==>
           forall w :: w in before.pending ==> a.version <= w))
  }

  /** What in-order PUTs keep: the PUTs still to be applied are the newest ones. */
  ghost predicate OrderOk(s: State) {
    && (forall v :: v in s.pending ==> Covered(s, v))
    && (s.writer.FromPut? ==> Covered(s, s.writer.version))
  }

  lemma StepKeepsOrder(s: State, a: Action)
    requires Inv(s) && OrderOk(s)
    requires a.CacheSet? && a.version in s.pending ==> forall w :: w in s.pending ==> a.version <= w
    ensures OrderOk(Step(s, a))
  {
    var t := Step(s, a);
    forall v | v in t.pending ensures Covered(t, v) {
      if v in s.pending {
        assert Covered(s, v);
      }
    }
    if a.CacheSet? && a.version in s.pending {
      assert Covered(s, a.version);
      forall w | a.version < w < |t.history| ensures w in t.foreign || w in t.pending {
      }
    }
  }

  lemma {:induction false} InOrderRunKeepsOrder(config: Config, history: seq<Snapshot>, boot: bool, acts: seq<Action>)
    requires config.Valid() && history != []
    requires InOrder(Start(config, history, boot), acts)
    ensures OrderOk(Steps(Start(config, history, boot), acts))
  {
    if acts == [] {
    } else {
      var before := acts[..|acts| - 1];
      InOrderRunKeepsOrder(config, history, boot, before);
      EveryRunKeepsInv(config, history, boot, before);
      StepKeepsOrder(Steps(Start(config, history, boot), before), acts[|acts| - 1]);
    }
  }

  /** Convergence. In every run of one worker whose PUTs reach the cache in commit order, once all
      PUTs have returned, a healer that healed or was superseded leaves the database's policy in
      the cache; one that gave up or was cancelled leaves that or, if no PUT ever committed, the
      permissive default. */
  lemma InOrderRunsConverge(config: Config, history: seq<Snapshot>, boot: bool, acts: seq<Action>)
    requires config.Valid() && history != []
    requires InOrder(Start(config, history, boot), acts)
    requires Steps(Start(config, history, boot), acts).Quiet()
    requires Steps(Start(config, history, boot), acts).foreign == {}
    ensures var s := Steps(Start(config, history, boot), acts);
            s.cache.snapshot ==
              if (s.healer.outcome.Exhausted? || s.healer.outcome.Cancelled?) && s.Top() == s.base then UNCONFIGURED
              else s.Stored()
  {
    EveryRunKeepsInv(config, history, boot, acts);
    InOrderRunKeepsOrder(config, history, boot, acts);
    var s := Steps(Start(config, history, boot), acts);
    var floor := if s.writer.Nobody? then s.base else s.CachedVersion();
    assert Covered(s, floor);
    assert floor < s.Top() ==> s.Top() in s.foreign || s.Top() in s.pending;
  }

  function Sum(xs: seq<real>): real {
    if xs == [] then 0.0 else Sum(xs[..|xs| - 1]) + xs[|xs| - 1]
  }

  function Delays(config: Config, n: nat): seq<real> {
    seq(n, i requires 0 <= i => Delay(config, i))
  }

  lemma SumSnoc(config: Config, n: nat)
    ensures Sum(Delays(config, n + 1)) == Sum(Delays(config, n)) + Delay(config, n)
  {
    assert Delays(config, n + 1)[..n] == Delays(config, n);
  }

  lemma DelayIsNonNegative(config: Config, n: nat)
    requires config.Valid()
    ensures 0.0 <= Delay(config, n)
  {
    assert 0.0 <= config.initial * Pow2(n) as real;
  }

  lemma {:induction false} SumOfFewerDelays(config: Config, k: nat, n: nat)
    requires config.Valid() && k <= n
    ensures 0.0 <= Sum(Delays(config, k)) <= Sum(Delays(config, n))
  {
    if n == 0 {
    } else {
      SumSnoc(config, n - 1);
      DelayIsNonNegative(config, n - 1);
      if k == n {
        SumOfFewerDelays(config, n - 1, n - 1);
      } else {
        SumOfFewerDelays(config, k, n - 1);
      }
    }
  }

  /** The healer's own effort is bounded in every run, and its sleeps follow the closed form. */
  lemma HealerEffortIsBounded(config: Config, history: seq<Snapshot>, boot: bool, acts: seq<Action>)
    requires config.Valid() && history != []
    ensures var s := Steps(Start(config, history, boot), acts);
            && s.loads <= |s.sleeps| <= config.maxAttempts
            && (forall i :: 0 <= i < |s.sleeps| ==> s.sleeps[i] == Delay(config, i))
            && Sum(s.sleeps) <= Sum(Delays(config, config.maxAttempts))
  {
    EveryRunKeepsInv(config, history, boot, acts);
    var s := Steps(Start(config, history, boot), acts);
    StepsKeepConfig(Start(config, history, boot), acts);
    assert s.sleeps == Delays(config, |s.sleeps|);
    SumOfFewerDelays(config, |s.sleeps|, config.maxAttempts);
  }

  lemma {:induction false} StepsKeepConfig(s: State, acts: seq<Action>)
    ensures Steps(s, acts).config == s.config
  {
    if acts != [] {
      StepsKeepConfig(s, acts[..|acts| - 1]);
    }
  }

  ghost predicate Capped(s: State) {
    forall i :: 0 <= i < |s.sleeps| ==> s.sleeps[i] <= s.config.ceiling
  }

  /** No run of this configuration ever sleeps longer than the ceiling. */
  ghost predicate AlwaysCapped(config: Config) {
    forall history, boot, acts :: history != [] ==> Capped(Steps(Start(config, history, boot), acts))
  }

  /** The ceiling bounds every sleep of every run exactly when it bounds the first one, to which it
      is not applied. */
  lemma CeilingHoldsIff(config: Config)
    requires config.Valid() && config.maxAttempts > 0
    ensures AlwaysCapped(config) <==> config.initial <= config.ceiling
  {
    var history := [UNCONFIGURED];
    var s := Steps(Start(config, history, false), []);
    assert s == Start(config, history, false) && s.sleeps == [config.initial];
    assert AlwaysCapped(config) ==> Capped(s);
    assert Capped(s) ==> s.sleeps[0] <= s.config.ceiling;
    if config.initial <= config.ceiling {
      forall history: seq<Snapshot>, boot, acts | history != [] ensures Capped(Steps(Start(config, history, boot), acts)) {
        HealerEffortIsBounded(config, history, boot, acts);
        StepsKeepConfig(Start(config, history, boot), acts);
      }
    }
  }

  /** A healer configured to wait a minute at first does, ceiling or not. */
  lemma FirstSleepExceedsTheCeiling(p: Snapshot)
    ensures var s := Steps(Start(Config(5, 60.0, 30.0), [p], false), [Wake]);
            s.healer.Reading? && s.sleeps == [60.0] && s.sleeps[0] > s.config.ceiling
  {
    assert [Wake][..0] == [];
  }

  /** With the shipped constants: sixty seconds of sleep, eighty-five seconds in all. */
  lemma ShippedHealerTimes(history: seq<Snapshot>, boot: bool, acts: seq<Action>)
    requires history != []
    ensures var s := Steps(Start(SHIPPED, history, boot), acts);
            Sum(s.sleeps) <= 60.0 && Sum(s.sleeps) + READ_TIMEOUT * s.loads as real <= 85.0
    ensures Delays(SHIPPED, 5) == [2.0, 4.0, 8.0, 16.0, 30.0] && Sum(Delays(SHIPPED, 5)) == 60.0
  {
    HealerEffortIsBounded(SHIPPED, history, boot, acts);
    assert Pow2(1) == 2 && Pow2(2) == 4 && Pow2(3) == 8 && Pow2(4) == 16;
    var d := Delays(SHIPPED, 5);
    assert d == [2.0, 4.0, 8.0, 16.0, 30.0];
    assert d[..4] == [2.0, 4.0, 8.0, 16.0];
    assert d[..4][..3] == [2.0, 4.0, 8.0];
    assert d[..4][..3][..2] == [2.0, 4.0];
    assert d[..4][..3][..2][..1] == [2.0];
    assert Sum([2.0]) == 2.0;
    assert Sum([2.0, 4.0]) == 6.0;
    assert Sum([2.0, 4.0, 8.0]) == 14.0;
    assert Sum([2.0, 4.0, 8.0, 16.0]) == 30.0;
  }
}
