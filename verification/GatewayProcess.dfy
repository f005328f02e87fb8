/** The process that owns the cache, written as the program writes it: fields updated in place by
    the PUT handler and by the healer's retry loop. Every method is proved to perform exactly the
    steps of the state machine in module SelfHeal, so that module's results hold of it. */
module GatewayProcess {
  import opened Options
  import OverlayWarm
  import opened PolicyCache
  import opened SelfHeal

  datatype PutResult = Committed(version: nat) | UnknownModels(unknown: set<string>)

  /** How an attempt ends: the read's result arrives, the read fails, or shutdown cancels the task
      during its sleep or during its read. */
  datatype Ending = Delivered | Failed | CancelledAsleep | CancelledReading

  /** What happens around one attempt: `asleep`, `beforeSelect` and `afterSelect` are the other
      tasks' actions during its awaits. */
  datatype Attempt = Attempt(
    asleep: seq<Action>,
    beforeSelect: seq<Action>,
    executed: bool,
    afterSelect: seq<Action>,
    ending: Ending)
  {
    ghost predicate Valid() {
      forall a :: a in asleep + beforeSelect + afterSelect ==> ByEnvironment(a)
    }

    predicate Succeeds() {
      executed && ending.Delivered?
    }

    predicate Cancelled() {
      ending.CancelledAsleep? || ending.CancelledReading?
    }

    /** Nothing comes after this attempt. */
    predicate IsLast() {
      Succeeds() || Cancelled()
    }

    ghost function Last(): Action {
      if Succeeds() then Resume else if Cancelled() then Cancel else ReadFails
    }

    ghost function Trace(): seq<Action> {
      if ending.CancelledAsleep? then asleep + [Cancel]
      else asleep + [Wake] + beforeSelect + (if executed then [Select] + afterSelect else []) + [Last()]
    }
  }

  ghost function TraceUpTo(script: seq<Attempt>, k: nat): seq<Action>
    requires k <= |script|
  {
    if k == 0 then [] else TraceUpTo(script, k - 1) + script[k - 1].Trace()
  }

  predicate NoneIsLast(script: seq<Attempt>, k: nat)
    requires k <= |script|
  {
    forall i :: 0 <= i < k ==> !script[i].IsLast()
  }

  predicate OutcomeOf(a: Attempt, outcome: Outcome) {
    && !outcome.Exhausted? && (outcome.Cancelled? <==> a.Cancelled())
    && (outcome.Healed? || outcome.Superseded? <==> a.Succeeds())
  }

  /** The first attempt that gets a result or is cancelled is the one numbered `used`, and the outcome
      tells which; without one, all attempts are used up. */
  predicate EndsAfter(script: seq<Attempt>, used: nat, outcome: Outcome)
    requires used <= |script|
  {
    if outcome.Exhausted? then used == |script| && NoneIsLast(script, |script|)
    else
      0 < used && NoneIsLast(script, used - 1) && script[used - 1].IsLast() && OutcomeOf(script[used - 1], outcome)
  }

  /** How many attempts are made, counting from the k-th. */
  function Used(script: seq<Attempt>, k: nat): nat
    requires k <= |script|
    decreases |script| - k
  {
    if k == |script| then k else if script[k].IsLast() then k + 1 else Used(script, k + 1)
  }

  predicate Fits(script: seq<Attempt>, used: nat, outcome: Outcome)
    requires used <= |script|
  {
    if used > 0 && script[used - 1].IsLast() then OutcomeOf(script[used - 1], outcome) else outcome.Exhausted?
  }

  lemma {:induction false} UsedFrom(script: seq<Attempt>, k: nat, outcome: Outcome)
    requires k <= |script| && NoneIsLast(script, k)
    requires Used(script, k) <= |script| ==> Fits(script, Used(script, k), outcome)
    ensures Used(script, k) <= |script| && EndsAfter(script, Used(script, k), outcome)
    decreases |script| - k
  {
    if k < |script| && !script[k].IsLast() {
      UsedFrom(script, k + 1, outcome);
    }
  }

  /** The state after the first `k` attempts of the script. */
  ghost predicate Performed(start: State, script: seq<Attempt>, k: nat, now: State)
    requires k <= |script|
  {
    now == Steps(start, TraceUpTo(script, k))
  }

  lemma NothingPerformed(start: State, script: seq<Attempt>)
    ensures Performed(start, script, 0, start)
  {
  }

  lemma {:induction false} StepsConcat(s: State, a: seq<Action>, b: seq<Action>)
    ensures Steps(s, a + b) == Steps(Steps(s, a), b)
  {
    if b == [] {
      assert a + b == a;
    } else {
      var c, x := b[..|b| - 1], b[|b| - 1];
      assert b == c + [x];
      StepsConcat(s, a, c);
      assert a + b == (a + c) + [x];
      StepsSnoc(s, a + c, x);
      StepsSnoc(Steps(s, a), c, x);
    }
  }

  lemma StepsOne(s: State, a: Action)
    ensures Steps(s, [a]) == Step(s, a)
  {
    assert [a][..0] == [];
  }

  /** An attempt's trace, taken apart at its awaits. */
  lemma StepsAttempt(s: State, a: Attempt)
    requires !a.ending.CancelledAsleep?
    ensures var s2 := Steps(Step(Steps(s, a.asleep), Wake), a.beforeSelect);
            var s3 := if a.executed then Steps(Step(s2, Select), a.afterSelect) else s2;
            Steps(s, a.Trace()) == Step(s3, a.Last())
  {
    var s1 := Steps(s, a.asleep);
    StepsSnoc(s, a.asleep, Wake);
    StepsConcat(s, a.asleep + [Wake], a.beforeSelect);
    var head := a.asleep + [Wake] + a.beforeSelect;
    if a.executed {
      StepsConcat(s, head, [Select] + a.afterSelect);
      StepsConcat(Steps(s, head), [Select], a.afterSelect);
      StepsOne(Steps(s, head), Select);
      StepsSnoc(s, head + ([Select] + a.afterSelect), a.Last());
    } else {
      StepsSnoc(s, head, a.Last());
      assert head + [] + [a.Last()] == head + [a.Last()];
    }
  }

  class GatewayProcess {
    const config: Config
    const cache: ModelPolicyCache
    const teamCache: OverlayWarm.OverlayCache<nat, set<string>>
    const memberCache: OverlayWarm.OverlayCache<(nat, nat), set<string>>
    const base: nat
    var history: seq<Snapshot>
    var foreign: set<nat>
    var pending: set<nat>
    ghost var writer: Writer
    ghost var healer: Healer
    ghost var sleeps: seq<real>
    ghost var loads: nat

    ghost function Now(): State
      reads this, cache
    {
      State(config, base, history, foreign, pending, cache.Value(), writer, healer, sleeps, loads)
    }

    /** Startup: empty caches first, then one bounded read. Its success warms the two overlay caches
        too, its failure schedules the healer. */
    constructor (config: Config, stored: seq<Snapshot>, readable: bool,
                 teams: Option<map<nat, set<string>>>, members: Option<map<(nat, nat), set<string>>>)
      requires stored != []
      ensures Now() == Start(config, stored, readable)
      ensures fresh(cache) && fresh(teamCache) && fresh(memberCache)
      ensures teamCache.snapshot == if readable && teams.Some? then teams.value else map[]
      ensures memberCache.snapshot == if readable && members.Some? then members.value else map[]
    {
      this.config := config;
      cache := new ModelPolicyCache();
      teamCache := new OverlayWarm.OverlayCache();
      memberCache := new OverlayWarm.OverlayCache();
      base := |stored| - 1;
      history := stored;
      foreign, pending := {}, {};
      writer := Nobody;
      loads := 0;
      healer := FirstSleep(config);
      sleeps := if config.maxAttempts == 0 then [] else [config.initial];
      new;
      if readable {
        var _ := cache.Set(history[|history| - 1]);
        writer := FromRead(|history| - 1);
        healer, sleeps := Stopped(NotScheduled), [];
        OverlayWarm.Warm(teamCache, teams);
        OverlayWarm.Warm(memberCache, members);
      }
    }

    method CommitRow(policy: Snapshot) returns (version: nat)
      modifies this`history, this`pending
      ensures Now() == Step(old(Now()), Commit(policy))
      ensures version == old(|history|)
    {
      version := |history|;
      history := history + [policy];
      pending := pending + {version};
    }

    /** The first half of the PUT handler: validate, then upsert and commit. */
    method PutModelPolicy(mode: Mode, models: seq<string>, known: set<string>) returns (r: PutResult)
      modifies this`history, this`pending
      ensures (set m | m in models) <= known ==>
                && r == Committed(old(|history|))
                && Now() == Step(old(Now()), Commit(Snapshot(mode, set m | m in models)))
      ensures !((set m | m in models) <= known) ==>
                r == UnknownModels((set m | m in models) - known) && Now() == old(Now())
    {
      var wanted := set m | m in models;
      var unknown := wanted - known;
      if unknown != {} {
        return UnknownModels(unknown);
      }
      forall m | m in wanted ensures m in known {
        assert m !in unknown;
      }
      var version := CommitRow(Snapshot(mode, wanted));
      r := Committed(version);
    }

    /** The second half of the PUT handler, after the await of the commit. */
    method PutReachesCache(version: nat)
      requires version in pending && version < |history|
      modifies this`pending, this`writer, cache
      ensures Now() == Step(old(Now()), CacheSet(version))
    {
      pending := pending - {version};
      var _ := cache.Set(history[version]);
      writer := FromPut(version);
    }

    /** What the other tasks and workers do while the healer waits. */
    method Others(actions: seq<Action>)
      requires forall a :: a in actions ==> ByEnvironment(a)
      modifies this`history, this`foreign, this`pending, this`writer, cache
      ensures Now() == Steps(old(Now()), actions)
      ensures |history| >= old(|history|)
    {
      for i := 0 to |actions|
        invariant Now() == Steps(old(Now()), actions[..i])
        invariant |history| >= old(|history|)
      {
        var a := actions[i];
        assert ByEnvironment(a);
        if a.Commit? {
          var _ := CommitRow(a.policy);
        } else if a.ForeignCommit? {
          foreign := foreign + {|history|};
          history := history + [a.policy];
        } else if a.version in pending && a.version < |history| {
          PutReachesCache(a.version);
        }
        assert actions[..i + 1] == actions[..i] + [a];
        StepsSnoc(old(Now()), actions[..i], a);
      }
      assert actions[..|actions|] == actions;
    }

    /** The bounded read: the database executes it between the others' actions, or it fails. */
    method LoadPolicy(attempt: nat, backoff: real, expected: nat, a: Attempt) returns (loaded: Snapshot)
      requires a.Valid()
      requires history != [] && healer == Reading(attempt, backoff, expected)
      modifies this`history, this`foreign, this`pending, this`writer, this`healer, cache
      ensures var s2 := Steps(old(Now()), a.beforeSelect);
              Now() == if a.executed then Steps(Step(s2, Select), a.afterSelect) else s2
      ensures |history| >= old(|history|)
      ensures a.executed ==>
                && healer.HasRead? && healer.attempt == attempt && healer.backoff == backoff
                && healer.expected == expected
                && healer.version < |history| && loaded == history[healer.version]
      ensures !a.executed ==> healer == Reading(attempt, backoff, expected)
    {
      Others(a.beforeSelect);
      loaded := history[|history| - 1];
      if a.executed {
        healer := HasRead(attempt, backoff, expected, |history| - 1);
        StepsKeepHistory(Now(), a.afterSelect);
        Others(a.afterSelect);
      }
    }

    /** The result is there: write it back unless some PUT wrote meanwhile. */
    method ApplyRead(loaded: Snapshot, expected: nat) returns (outcome: Outcome)
      requires healer.HasRead? && healer.expected == expected
      requires healer.version < |history| && loaded == history[healer.version]
      modifies this`writer, this`healer, cache
      ensures Now() == Step(old(Now()), Resume)
      ensures healer == Stopped(outcome) && (outcome.Healed? || outcome.Superseded?)
    {
      var applied := cache.SetIfCurrent(loaded, expected);
      outcome := if applied then Healed else Superseded;
      writer := if applied then FromRead(healer.version) else writer;
      healer := Stopped(outcome);
    }

    /** The read failed: back off, or give up after the last attempt. */
    method BackOff(attempt: nat, backoff: real) returns (next: real)
      requires healer.Reading? || healer.HasRead?
      requires healer.attempt == attempt && healer.backoff == backoff
      modifies this`healer, this`sleeps
      ensures Now() == Step(old(Now()), ReadFails)
      ensures next == Min(backoff * 2.0, config.ceiling)
      ensures healer == if attempt >= config.maxAttempts then Stopped(Exhausted) else Sleeping(attempt + 1, next)
    {
      next := Min(backoff * 2.0, config.ceiling);
      if attempt >= config.maxAttempts {
        healer := Stopped(Exhausted);
      } else {
        healer, sleeps := Sleeping(attempt + 1, next), sleeps + [next];
      }
    }

    /** Shutdown cancels the task at one of its awaits. */
    method Cancelling()
      requires !healer.Stopped?
      modifies this`healer
      ensures Now() == Step(old(Now()), Cancel) && healer == Stopped(Cancelled)
    {
      healer := Stopped(Cancelled);
    }

    /** The sleep is over: capture the generation. */
    method WakeUp(attempt: nat, backoff: real) returns (expected: nat)
      requires healer == Sleeping(attempt, backoff)
      modifies this`healer, this`loads
      ensures Now() == Step(old(Now()), Wake) && healer == Reading(attempt, backoff, expected)
    {
      expected := cache.GetGeneration();
      healer, loads := Reading(attempt, backoff, expected), loads + 1;
    }

    /** Then issue the bounded read. */
    method ReadOnce(attempt: nat, backoff: real, a: Attempt) returns (loaded: Snapshot, expected: nat)
      requires a.Valid()
      requires history != [] && healer == Sleeping(attempt, backoff)
      modifies this`history, this`foreign, this`pending, this`writer, this`healer, this`loads, cache
      ensures var s2 := Steps(Step(old(Now()), Wake), a.beforeSelect);
              Now() == if a.executed then Steps(Step(s2, Select), a.afterSelect) else s2
      ensures history != []
      ensures a.executed ==>
                && healer.HasRead? && healer.attempt == attempt && healer.backoff == backoff
                && healer.expected == expected
                && healer.version < |history| && loaded == history[healer.version]
      ensures !a.executed ==> healer == Reading(attempt, backoff, expected)
    {
      expected := WakeUp(attempt, backoff);
      loaded := LoadPolicy(attempt, backoff, expected, a);
    }

    /** One turn of the loop. */
    method TryOnce(attempt: nat, backoff: real, a: Attempt) returns (done: bool, outcome: Outcome, next: real)
      requires a.Valid()
      requires history != [] && healer == Sleeping(attempt, backoff)
      modifies this, cache
      ensures Now() == Steps(old(Now()), a.Trace())
      ensures history != []
      ensures done <==> a.IsLast()
      ensures done ==> healer == Stopped(outcome)
      ensures a.Succeeds() ==> outcome.Healed? || outcome.Superseded?
      ensures a.Cancelled() ==> outcome.Cancelled?
      ensures !done ==>
                healer == if attempt >= config.maxAttempts then Stopped(Exhausted) else Sleeping(attempt + 1, next)
    {
      done, outcome, next := a.IsLast(), Cancelled, backoff;
      Others(a.asleep);
      if a.ending.CancelledAsleep? {
        StepsSnoc(old(Now()), a.asleep, Cancel);
        Cancelling();
        return;
      }
      StepsAttempt(old(Now()), a);
      var loaded, expected := ReadOnce(attempt, backoff, a);
      if a.Succeeds() {
        outcome := ApplyRead(loaded, expected);
      } else if a.Cancelled() {
        Cancelling();
      } else {
        next := BackOff(attempt, backoff);
      }
    }

    /** One turn of the loop, as seen from the start of it. */
    method Turn(ghost start: State, script: seq<Attempt>, attempt: nat, backoff: real)
      returns (done: bool, outcome: Outcome, next: real)
      requires 1 <= attempt <= |script| && script[attempt - 1].Valid()
      requires Performed(start, script, attempt - 1, Now()) && history != [] && healer == Sleeping(attempt, backoff)
      modifies this, cache
      ensures Performed(start, script, attempt, Now()) && history != []
      ensures done <==> script[attempt - 1].IsLast()
      ensures done ==> healer == Stopped(outcome) && OutcomeOf(script[attempt - 1], outcome)
      ensures !done ==>
                healer == if attempt >= config.maxAttempts then Stopped(Exhausted) else Sleeping(attempt + 1, next)
    {
      StepsConcat(start, TraceUpTo(script, attempt - 1), script[attempt - 1].Trace());
      done, outcome, next := TryOnce(attempt, backoff, script[attempt - 1]);
    }

    /** The retry loop, up to an attempt that gets a result or is cancelled. */
    method Retry(script: seq<Attempt>) returns (outcome: Outcome, used: nat)
      requires history != []
      requires |script| == config.maxAttempts && forall i :: 0 <= i < |script| ==> script[i].Valid()
      requires healer == FirstSleep(config)
      modifies this, cache
      ensures used == Used(script, 0) && used <= |script| && Fits(script, used, outcome)
      ensures Performed(old(Now()), script, used, Now())
      ensures healer == Stopped(outcome)
    {
      ghost var start := Now();
      NothingPerformed(start, script);
      var backoff := config.initial;
      for attempt := 1 to config.maxAttempts + 1
        invariant Performed(start, script, attempt - 1, Now()) && history != []
        invariant Used(script, attempt - 1) == Used(script, 0)
        invariant attempt > 1 ==> !script[attempt - 2].IsLast()
        invariant healer == if attempt <= config.maxAttempts then Sleeping(attempt, backoff) else Stopped(Exhausted)
      {
        assert script[attempt - 1].Valid();
        var done;
        done, outcome, backoff := Turn(start, script, attempt, backoff);
        if done {
          return outcome, attempt;
        }
      }
      return Exhausted, config.maxAttempts;
    }

    /** The background task. `script` says what the database, the other tasks and shutdown do; the
        task performs exactly the script's trace up to the first attempt that gets a result or is
        cancelled. Only a heal is followed by the warms of the two overlay caches. */
    method SelfHeal(script: seq<Attempt>, teams: Option<map<nat, set<string>>>, members: Option<map<(nat, nat), set<string>>>)
      returns (outcome: Outcome, used: nat)
      requires history != []
      requires |script| == config.maxAttempts && forall i :: 0 <= i < |script| ==> script[i].Valid()
      requires healer == FirstSleep(config)
      modifies this, cache, teamCache, memberCache
      ensures used <= |script| && EndsAfter(script, used, outcome)
      ensures Performed(old(Now()), script, used, Now())
      ensures healer == Stopped(outcome)
      ensures teamCache.snapshot == if outcome.Healed? && teams.Some? then teams.value else old(teamCache.snapshot)
      ensures memberCache.snapshot == if outcome.Healed? && members.Some? then members.value else old(memberCache.snapshot)
    {
      outcome, used := Retry(script);
      UsedFrom(script, 0, outcome);
      if outcome.Healed? {
        OverlayWarm.Warm(teamCache, teams);
        OverlayWarm.Warm(memberCache, members);
      }
    }
  }

  lemma {:induction false} StepsKeepHistory(s: State, acts: seq<Action>)
    ensures s.history <= Steps(s, acts).history
  {
    if acts != [] {
      StepsKeepHistory(s, acts[..|acts| - 1]);
    }
  }
}
