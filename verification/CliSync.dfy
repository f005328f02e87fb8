/** The gatekey-sync helper itself (cli-sync/src/gatekey_sync), changing the keychain, the cache
    file and the injected files in place. */
module CliSync {
  import opened Options
  import opened KeySync

  class Helper {
    var credential: Option<string>   // OS keychain
    var cacheFile: CacheFile
    var files: map<string, string>
    var now: int
    var log: seq<Event>

    function Now(): World
      reads this
    {
      World(credential, cacheFile, files, now, log)
    }

    constructor (start: int)
      ensures Now() == Installed(start)
    {
      credential, cacheFile, files, now, log := None, Absent, map[], start, [];
    }

    method InvalidateCache()
      modifies this
      ensures Now() == old(Now()).(cacheFile := Absent)
    {
      cacheFile := Absent;
    }

    method ClearRefreshCredential()
      modifies this
      ensures Now() == old(Now()).(credential := None)
    {
      credential := None;
    }

    method WriteCache(key: Key)
      modifies this
      ensures Now() == old(Now()).(cacheFile := Stored(key))
    {
      cacheFile := Stored(key);
    }

    /** What is cached, or nothing on any problem with the file. */
    method ReadCache() returns (cached: Option<Key>)
      ensures cached == if cacheFile.Stored? then Some(cacheFile.key) else None
    {
      match cacheFile
      case Stored(key) => return Some(key);
      case _ => return None;
    }

    method IsValid(cached: Option<Key>) returns (valid: bool)
      ensures valid <==> cached.Some? && cached.value.validUntil > now
    {
      if cached == None {
        return false;
      }
      return cached.value.validUntil > now;
    }

    method RefreshKey(reply: Reply) returns (key: Outcome<Key>)
      modifies this
      ensures (Now(), key) == Refreshed(old(Now()), reply)
    {
      if credential == None {
        return Exit(1);
      }
      log := log + [Asked(credential.value, reply)];
      match reply
      case Rejected(cleared) =>
        if !cleared {
          return Exit(1);
        }
        ClearRefreshCredential();
        InvalidateCache();
        return Exit(1);
      case Failed =>
        return Exit(1);
      case Fetched(k) =>
        WriteCache(k);
        return Got(k);
    }

    method ResolveKey(reply: Reply) returns (key: Outcome<Key>)
      modifies this
      ensures (Now(), key) == Resolved(old(Now()), reply)
    {
      var cached := ReadCache();
      var valid := IsValid(cached);
      if valid {
        return Got(cached.value);
      }
      key := RefreshKey(reply);
    }

    method WriteInjection(target: Target, secret: string)
      modifies this
      ensures Now() == Injected(old(Now()), target, secret)
    {
      match target
      case EnvVar(_) =>
      case FileAt(path, template) => files := files[path := Fill(template, secret)];
    }

    method RunWrapped(command: seq<string>, secret: string, exitCode: int) returns (result: Outcome<int>)
      modifies this
      ensures command == [] ==> result == Exit(2) && Now() == old(Now())
      ensures command != [] ==> result == Got(exitCode) &&
                                Now() == Log(old(Now()), Ran(command, secret, exitCode, old(now)))
    {
      if command == [] {
        return Exit(2);
      }
      log := log + [Ran(command, secret, exitCode, now)];
      return Got(exitCode);
    }

    /** Stores the credential that polling ended on, or changes nothing; `None` means that it is
        still polling. An error that nobody catches ends the process with code 1 as well. */
    method Login(start: Option<DeviceStart>, replies: seq<PollReply>) returns (exitCode: Option<int>)
      modifies this
      ensures start == None ==> exitCode == Some(1) && Now() == old(Now())
      ensures start.Some? ==>
                match Polling(replies, start.value.interval, start.value.expiresIn, 0, 0).1
                case Approved(c) => (Now(), exitCode) == (LoggedInWorld(old(Now()), Some(c)).0, Some(0))
                case StillPolling => (Now(), exitCode) == (old(Now()), None)
                case _ => (Now(), exitCode) == (old(Now()), Some(1))
    {
      if start == None {
        return Some(1);
      }
      var polls, result := PollUntilApproved(start.value.interval, start.value.expiresIn, replies);
      match result
      case Approved(c) =>
        credential := Some(c);
        log := log + [LoggedIn(c)];
        return Some(0);
      case StillPolling =>
        return None;
      case _ =>
        return Some(1);
    }

    method GetKey(reply: Reply) returns (exitCode: int)
      modifies this
      ensures (Now(), exitCode) == GotKey(old(Now()), reply)
    {
      var key := ResolveKey(reply);
      match key
      case Exit(code) =>
        return code;
      case Got(k) =>
        log := log + [Shown(k.secret, now)];
        return 0;
    }

    /** Runs a command with the key injected, with one retry when the cached key seems rejected. */
    method Exec(target: Option<Target>, command: seq<string>, reply: Reply, first: int, second: int) returns (exitCode: int)
      modifies this
      ensures (Now(), exitCode) == Executed(old(Now()), target, command, reply, first, second)
    {
      if target == None {
        return 2;
      }
      var cached := ReadCache();
      var usedCache := IsValid(cached);
      var secret;
      if usedCache {
        secret := cached.value.secret;
      } else {
        var key := RefreshKey(reply);
        if key.Exit? {
          return key.code;
        }
        secret := key.value.secret;
      }
      WriteInjection(target.value, secret);
      var result := RunWrapped(command, secret, first);
      if result.Exit? {
        return result.code;
      }
      exitCode := result.value;
      if exitCode != 0 && usedCache {
        InvalidateCache();
        var key := RefreshKey(reply);
        if key.Exit? {
          return key.code;
        }
        secret := key.value.secret;
        WriteInjection(target.value, secret);
        result := RunWrapped(command, secret, second);
        exitCode := result.value;
      }
    }
  }

  const SEPARATOR := "--"

  /** The tool's own arguments end at the first separator; the rest is the command, untouched. */
  method SplitArgv(argv: seq<string>) returns (own: seq<string>, command: seq<string>)
    ensures SEPARATOR !in own
    ensures argv == if SEPARATOR in argv then own + [SEPARATOR] + command else own
    ensures SEPARATOR !in argv ==> command == []
  {
    var sep := 0;
    while sep < |argv| && argv[sep] != SEPARATOR
      invariant 0 <= sep <= |argv| && SEPARATOR !in argv[..sep]
    {
      sep := sep + 1;
    }
    own, command := argv[..sep], if sep < |argv| then argv[sep + 1..] else [];
  }

  // ---------------------------------------------------------------- the poll loop

  datatype DeviceStart = DeviceStart(interval: int, expiresIn: int)

  datatype Body = Malformed | Body(status: string, refreshCredential: Option<string>)

  /** One answer to a poll, and how long it took to come. */
  datatype PollReply =
    | Unreachable(took: nat)
    | Response(took: nat, code: int, body: Body)

  datatype PollResult =
    | Approved(credential: string)
    | TimedOut
    | Lost                 // the server could not be reached
    | HttpError(code: int) // the HTTP library's own error, which leaves the client as it is
    | BadBody              // the body is not the object expected
    | BadSleep             // the interval is negative
    | StillPolling         // the given replies are used up

  predicate Success(code: int) {
    200 <= code < 300
  }

  /** A body that says "approved" and carries a credential that is not empty. */
  predicate Grants(body: Body) {
    body.Body? && body.status == "approved" && body.refreshCredential.Some? && body.refreshCredential.value != ""
  }

  /** The reply sends the loop to sleep. */
  predicate Waits(r: PollReply) {
    r.Response? && (r.code == 202 || (Success(r.code) && r.body.Body? && !Grants(r.body)))
  }

  /** Neither a success nor the 404 that stands for an expired code. */
  predicate Fails(r: PollReply) {
    r.Response? && !(200 <= r.code < 300) && r.code != 404
  }

  predicate Approves(r: PollReply) {
    r.Response? && Success(r.code) && r.code != 202 && Grants(r.body)
  }

  /** How polling goes on after `k` waiting replies that took until `now`: how many polls there are
      in all, and how it ends. */
  function Polling(replies: seq<PollReply>, interval: int, expiresIn: int, k: nat, now: int): (nat, PollResult)
    requires k <= |replies|
    decreases |replies| - k
  {
    if now >= expiresIn then (k, TimedOut)
    else if k == |replies| then (k, StillPolling)
    else
      var r := replies[k];
      if r.Unreachable? then (k + 1, Lost)
      else if r.code == 404 then (k + 1, TimedOut)
      else if Waits(r) then
        if interval < 0 then (k + 1, BadSleep) else Polling(replies, interval, expiresIn, k + 1, now + r.took + interval)
      else if !Success(r.code) then (k + 1, HttpError(r.code))
      else if Approves(r) then (k + 1, Approved(r.body.refreshCredential.value))
      else (k + 1, BadBody)
  }

  /** Time gone when the first `n` replies have come and been slept on. */
  function Elapsed(replies: seq<PollReply>, n: nat, interval: int): int
    requires n <= |replies|
  {
    if n == 0 then 0 else Elapsed(replies, n - 1, interval) + replies[n - 1].took + interval
  }

  function CeilDiv(a: int, b: int): int
    requires b > 0
  {
    (a + b - 1) / b
  }

  lemma BelowCeil(n: nat, interval: int, expiresIn: int)
    requires interval > 0 && n * interval < expiresIn
    ensures n < CeilDiv(expiresIn, interval)
  {
    var q := CeilDiv(expiresIn, interval);
    assert q * interval + (expiresIn + interval - 1) % interval == expiresIn + interval - 1;
    assert n >= q ==> n * interval >= q * interval;
  }

  /** Every reply but the last polled one was a waiting one inside the deadline, and the last one
      decides. */
  ghost predicate EndsBy(replies: seq<PollReply>, interval: int, expiresIn: int, polls: nat, result: PollResult)
    requires polls <= |replies|
  {
    && (forall k :: 0 <= k < polls - 1 ==> Waits(replies[k]))
    && (forall k :: 0 <= k < polls ==> Elapsed(replies, k, interval) < expiresIn)
    && (polls > 1 ==> interval >= 0)
    && match result
       case Approved(c) => polls > 0 && Approves(replies[polls - 1]) && replies[polls - 1].body.refreshCredential == Some(c)
       case TimedOut => (polls > 0 && replies[polls - 1].Response? && replies[polls - 1].code == 404) ||
                        ((polls > 0 ==> Waits(replies[polls - 1])) && Elapsed(replies, polls, interval) >= expiresIn)
       case Lost => polls > 0 && replies[polls - 1].Unreachable?
       case HttpError(code) => polls > 0 && Fails(replies[polls - 1]) && replies[polls - 1].code == code
       case BadBody => polls > 0 && replies[polls - 1].Response? && Success(replies[polls - 1].code) &&
                       replies[polls - 1].body.Malformed?
       case BadSleep => polls > 0 && Waits(replies[polls - 1]) && interval < 0
       case StillPolling => polls == |replies| && (polls > 0 ==> Waits(replies[polls - 1])) &&
                            Elapsed(replies, polls, interval) < expiresIn
  }

  lemma {:induction false} PollingEndsBy(replies: seq<PollReply>, interval: int, expiresIn: int, n: nat)
    requires n <= |replies| && (forall j :: 0 <= j < n ==> Waits(replies[j]))
    requires (forall k :: 0 <= k < n ==> Elapsed(replies, k, interval) < expiresIn) && (n > 0 ==> interval >= 0)
    ensures var (polls, result) := Polling(replies, interval, expiresIn, n, Elapsed(replies, n, interval));
            n <= polls <= |replies| && EndsBy(replies, interval, expiresIn, polls, result)
    decreases |replies| - n
  {
    if Elapsed(replies, n, interval) < expiresIn && n < |replies| && Waits(replies[n]) && interval >= 0 {
      PollingEndsBy(replies, interval, expiresIn, n + 1);
    }
  }

  lemma {:induction false} ElapsedAtLeast(replies: seq<PollReply>, n: nat, interval: nat)
    requires n <= |replies|
    ensures Elapsed(replies, n, interval) >= n * interval
  {
    if n > 0 {
      ElapsedAtLeast(replies, n - 1, interval);
      assert n * interval == (n - 1) * interval + interval;
    }
  }

  /** With a positive interval the polls are few, and that many replies always decide. */
  lemma PollsAreFew(replies: seq<PollReply>, interval: nat, expiresIn: int)
    requires interval > 0
    ensures var (polls, result) := Polling(replies, interval, expiresIn, 0, 0);
            && (polls > 0 ==> polls <= CeilDiv(expiresIn, interval))
            && (|replies| >= CeilDiv(expiresIn, interval) ==> result != StillPolling)
  {
    PollingEndsBy(replies, interval, expiresIn, 0);
    var (polls, result) := Polling(replies, interval, expiresIn, 0, 0);
    if polls > 0 {
      ElapsedAtLeast(replies, polls - 1, interval);
      assert Elapsed(replies, polls - 1, interval) < expiresIn;
      BelowCeil(polls - 1, interval, expiresIn);
    }
    if result == StillPolling {
      ElapsedAtLeast(replies, polls, interval);
      BelowCeil(polls, interval, expiresIn);
    }
  }

  /** The loop polls as often, and ends in the same way, as `Polling` says. */
  method PollUntilApproved(interval: int, expiresIn: int, replies: seq<PollReply>) returns (polls: nat, result: PollResult)
    ensures (polls, result) == Polling(replies, interval, expiresIn, 0, 0)
    ensures polls <= |replies| && EndsBy(replies, interval, expiresIn, polls, result)
    ensures interval > 0 && polls > 0 ==> polls <= CeilDiv(expiresIn, interval)
    ensures interval > 0 && |replies| >= CeilDiv(expiresIn, interval) ==> result != StillPolling
  {
    PollingEndsBy(replies, interval, expiresIn, 0);
    if interval > 0 {
      PollsAreFew(replies, interval, expiresIn);
    }
    var now, deadline := 0, expiresIn;
    polls := 0;
    while now < deadline
      invariant polls <= |replies|
      invariant Polling(replies, interval, expiresIn, polls, now) == Polling(replies, interval, expiresIn, 0, 0)
      decreases |replies| - polls
    {
      if polls == |replies| {
        return polls, StillPolling;
      }
      var reply := replies[polls];
      polls := polls + 1;
      if reply.Unreachable? {
        return polls, Lost;
      }
      if reply.code == 404 {
        return polls, TimedOut;
      }
      if reply.code != 202 {
        if !Success(reply.code) {
          return polls, HttpError(reply.code);
        }
        if reply.body.Malformed? {
          return polls, BadBody;
        }
        if Grants(reply.body) {
          return polls, Approved(reply.body.refreshCredential.value);
        }
      }
      if interval < 0 {
        return polls, BadSleep;
      }
      now := now + reply.took + interval;
    }
    return polls, TimedOut;
  }

  lemma {:induction false} ElapsedGrows(replies: seq<PollReply>, i: nat, j: nat, interval: nat)
    requires i <= j <= |replies|
    ensures Elapsed(replies, i, interval) <= Elapsed(replies, j, interval)
    decreases j
  {
    if i < j {
      ElapsedGrows(replies, i, j - 1, interval);
    }
  }

  /** The loop keeps polling after such a reply: 202, or another success whose body does not say
      "approved" or carries no credential. */
  predicate Pending(r: PollReply) {
    && r.Response? && 200 <= r.code < 300
    && (r.code == 202 ||
        (r.body.Body? && (r.body.status != "approved" || r.body.refreshCredential == None || r.body.refreshCredential == Some(""))))
  }

  /** A success other than 202 that says "approved" and carries this credential. */
  predicate Brings(r: PollReply, c: string) {
    r.Response? && 200 <= r.code < 300 && r.code != 202 && r.body == Body("approved", Some(c)) && c != ""
  }

  /** The k-th reply is polled for, after nothing but pending ones. */
  ghost predicate PolledFor(replies: seq<PollReply>, interval: int, expiresIn: int, k: nat) {
    && k < |replies| && (forall j :: 0 <= j < k ==> Pending(replies[j])) && (k > 0 ==> interval >= 0)
    && Elapsed(replies, k, interval) < expiresIn
  }

  lemma PendingIffWaits(r: PollReply)
    ensures Pending(r) <==> Waits(r)
    ensures forall c :: Brings(r, c) <==> Approves(r) && r.body.refreshCredential == Some(c)
  {
  }

  /** A reply that is polled for is come to. */
  lemma {:induction false} PollsOn(replies: seq<PollReply>, interval: int, expiresIn: int, n: nat, k: nat)
    requires n <= k && PolledFor(replies, interval, expiresIn, k)
    ensures Polling(replies, interval, expiresIn, n, Elapsed(replies, n, interval)) ==
              Polling(replies, interval, expiresIn, k, Elapsed(replies, k, interval))
    decreases k - n
  {
    if n < k {
      ElapsedGrows(replies, n, k, interval);
      PendingIffWaits(replies[n]);
      PollsOn(replies, interval, expiresIn, n + 1, k);
    }
  }

  /** Polling ends with a credential exactly when, inside the deadline and after pending replies only,
      a success other than 202 says "approved" and carries it; it is not empty, and the polls end
      there. */
  lemma ApprovedIff(replies: seq<PollReply>, interval: int, expiresIn: int, c: string)
    ensures Polling(replies, interval, expiresIn, 0, 0).1 == Approved(c) <==>
              exists k: nat :: PolledFor(replies, interval, expiresIn, k) && Brings(replies[k], c)
    ensures forall k: nat :: PolledFor(replies, interval, expiresIn, k) && Brings(replies[k], c) ==>
              Polling(replies, interval, expiresIn, 0, 0) == (k + 1, Approved(c))
  {
    forall k: nat | PolledFor(replies, interval, expiresIn, k) && Brings(replies[k], c)
      ensures Polling(replies, interval, expiresIn, 0, 0) == (k + 1, Approved(c))
    {
      PollsOn(replies, interval, expiresIn, 0, k);
      PendingIffWaits(replies[k]);
    }
    if Polling(replies, interval, expiresIn, 0, 0).1 == Approved(c) {
      ApprovedWasPolledFor(replies, interval, expiresIn, c);
    }
  }

  lemma ApprovedWasPolledFor(replies: seq<PollReply>, interval: int, expiresIn: int, c: string)
    requires Polling(replies, interval, expiresIn, 0, 0).1 == Approved(c)
    ensures var k := Polling(replies, interval, expiresIn, 0, 0).0 - 1;
            k >= 0 && PolledFor(replies, interval, expiresIn, k) && Brings(replies[k], c)
  {
    PollingEndsBy(replies, interval, expiresIn, 0);
    var (polls, result) := Polling(replies, interval, expiresIn, 0, 0);
    PendingIffWaits(replies[polls - 1]);
    forall j | 0 <= j < polls - 1 ensures Pending(replies[j]) {
      PendingIffWaits(replies[j]);
    }
  }

  /** The HTTP library's error leaves the client exactly when, inside the deadline and after pending
      replies only, a response has neither a 2xx code nor 404. */
  lemma HttpErrorLeavesIff(replies: seq<PollReply>, interval: int, expiresIn: int)
    ensures Polling(replies, interval, expiresIn, 0, 0).1.HttpError? <==>
              exists k: nat :: PolledFor(replies, interval, expiresIn, k) && Fails(replies[k])
  {
    forall k: nat | PolledFor(replies, interval, expiresIn, k) && Fails(replies[k])
      ensures Polling(replies, interval, expiresIn, 0, 0).1.HttpError?
    {
      PollsOn(replies, interval, expiresIn, 0, k);
    }
    var (polls, result) := Polling(replies, interval, expiresIn, 0, 0);
    if result.HttpError? {
      PollingEndsBy(replies, interval, expiresIn, 0);
      forall j | 0 <= j < polls - 1 ensures Pending(replies[j]) {
        PendingIffWaits(replies[j]);
      }
      assert PolledFor(replies, interval, expiresIn, polls - 1) && Fails(replies[polls - 1]);
    }
  }

  /** One answer with code 500 is enough. */
  lemma ServerErrorLeaves(body: Body)
    ensures Polling([Response(1, 500, body)], 5, 600, 0, 0) == (1, HttpError(500))
    ensures PolledFor([Response(1, 500, body)], 5, 600, 0)
  {
  }

  /** When every reply took equally long, so did every round. */
  lemma {:induction false} ElapsedEvenly(replies: seq<PollReply>, n: nat, interval: int, took: nat)
    requires n <= |replies| && forall j :: 0 <= j < n ==> replies[j].took == took
    ensures Elapsed(replies, n, interval) == n * (took + interval)
  {
    if n > 0 {
      ElapsedEvenly(replies, n - 1, interval, took);
      assert n * (took + interval) == (n - 1) * (took + interval) + (took + interval);
    }
  }

  /** A user who approves after `n` rounds of 202 is logged in exactly when those rounds end before the
      expiry. */
  lemma ApprovalInTimeIff(n: nat, took: nat, interval: nat, expiresIn: nat, pending: Body, c: string)
    requires c != ""
    ensures var replies := seq(n, j => Response(took, 202, pending)) + [Response(took, 200, Body("approved", Some(c)))];
            Polling(replies, interval, expiresIn, 0, 0).1 == Approved(c) <==> n * (took + interval) < expiresIn
  {
    var replies := seq(n, j => Response(took, 202, pending)) + [Response(took, 200, Body("approved", Some(c)))];
    ApprovedIff(replies, interval, expiresIn, c);
    ElapsedEvenly(replies, n, interval, took);
    assert forall k: nat :: k < |replies| && Brings(replies[k], c) ==> k == n;
    assert PolledFor(replies, interval, expiresIn, n) <==> n * (took + interval) < expiresIn;
    assert Brings(replies[n], c);
  }

  /** Without a pause between polls, instant pending replies keep the loop going for ever. */
  lemma NoPauseNoDeadline(replies: seq<PollReply>, expiresIn: int)
    requires expiresIn > 0 && forall r <- replies :: Pending(r) && r.took == 0
    ensures Polling(replies, 0, expiresIn, 0, 0) == (|replies|, StillPolling)
  {
    var k := |replies| - 1;
    if k >= 0 {
      forall j | 0 <= j <= k ensures Pending(replies[j]) && replies[j].took == 0 {
        assert replies[j] in replies;
      }
      ElapsedEvenly(replies, k, 0, 0);
      PollsOn(replies, 0, expiresIn, 0, k);
      PendingIffWaits(replies[k]);
    }
  }
}
