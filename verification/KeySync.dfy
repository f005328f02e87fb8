/** What one machine's gatekey-sync does, on values: the keychain, the cache file, the clock, the
    injected files, and a log of what the server and the wrapped commands saw. */
module KeySync {
  import opened Options

  datatype Key = Key(secret: string, validUntil: int)

  /** The server's answer to a request for the current key: 200, 401, or anything else. After a 401
      the keychain lets the credential be cleared, or raises an error that nobody catches. */
  datatype Reply = Fetched(key: Key) | Rejected(cleared: bool) | Failed

  /** `Unreadable` stands for every problem that `read_cache` turns into a miss. */
  datatype CacheFile = Absent | Unreadable | Stored(key: Key)

  datatype Piece = Literal(text: string) | TheSecret

  datatype Target = EnvVar(name: string) | FileAt(path: string, template: seq<Piece>)

  datatype Event =
    | LoggedIn(credential: string)
    | Asked(credential: string, reply: Reply)
    | Ran(command: seq<string>, secret: string, exitCode: int, at: int)
    | Shown(secret: string, at: int)

  datatype World = World(
    credential: Option<string>,
    cacheFile: CacheFile,
    files: map<string, string>,
    now: int,
    log: seq<Event>)

  /** A value, or the code the process exits with. */
  datatype Outcome<+T> = Got(value: T) | Exit(code: int)

  function Log(w: World, e: Event): World {
    w.(log := w.log + [e])
  }

  /** A cached key counts until its expiry. */
  function CacheHit(w: World): Option<Key> {
    if w.cacheFile.Stored? && w.cacheFile.key.validUntil > w.now then Some(w.cacheFile.key) else None
  }

  function Refreshed(w: World, reply: Reply): (World, Outcome<Key>) {
    if w.credential == None then (w, Exit(1))
    else
      var asked := Log(w, Asked(w.credential.value, reply));
      match reply
      case Fetched(k) => (asked.(cacheFile := Stored(k)), Got(k))
      case Rejected(cleared) =>
        (if cleared then asked.(credential := None, cacheFile := Absent) else asked, Exit(1))
      case Failed => (asked, Exit(1))
  }

  function Resolved(w: World, reply: Reply): (World, Outcome<Key>) {
    if CacheHit(w).Some? then (w, Got(CacheHit(w).value)) else Refreshed(w, reply)
  }

  function Fill(template: seq<Piece>, secret: string): string {
    if template == [] then ""
    else (if template[0].TheSecret? then secret else template[0].text) + Fill(template[1..], secret)
  }

  function Injected(w: World, target: Target, secret: string): World {
    match target
    case EnvVar(_) => w
    case FileAt(path, template) => w.(files := w.files[path := Fill(template, secret)])
  }

  /** Injecting the secret and running the command, which refuses an empty command only now. */
  function InjectAndRun(w: World, target: Target, secret: string, command: seq<string>, exitCode: int): (World, Outcome<int>) {
    var ready := Injected(w, target, secret);
    if command == [] then (ready, Exit(2))
    else (Log(ready, Ran(command, secret, exitCode, w.now)), Got(exitCode))
  }

  function LoggedInWorld(w: World, approved: Option<string>): (World, int) {
    match approved
    case None => (w, 1)
    case Some(c) => (Log(w.(credential := Some(c)), LoggedIn(c)), 0)
  }

  function GotKey(w: World, reply: Reply): (World, int) {
    var (next, key) := Resolved(w, reply);
    match key
    case Exit(code) => (next, code)
    case Got(k) => (Log(next, Shown(k.secret, next.now)), 0)
  }

  /** The second half of `exec`: drop the cached key, fetch once, run once more. */
  function Retried(w: World, target: Target, command: seq<string>, reply: Reply, exitCode: int): (World, int) {
    var (next, key) := Refreshed(w.(cacheFile := Absent), reply);
    match key
    case Exit(code) => (next, code)
    case Got(k) =>
      var (done, result) := InjectAndRun(next, target, k.secret, command, exitCode);
      (done, if result.Got? then result.value else result.code)
  }

  /** `exec`: `reply` is what the server would answer, `first` and `second` what the runs would
      return. */
  function Executed(w: World, target: Option<Target>, command: seq<string>, reply: Reply, first: int, second: int): (World, int) {
    if target == None then (w, 2)
    else
      var (next, key) := Resolved(w, reply);
      match key
      case Exit(code) => (next, code)
      case Got(k) =>
        var (ran, result) := InjectAndRun(next, target.value, k.secret, command, first);
        match result
        case Exit(code) => (ran, code)
        case Got(code) =>
          if code != 0 && CacheHit(w).Some? then Retried(ran, target.value, command, reply, second) else (ran, code)
  }

  // ---------------------------------------------------------------- runs

  datatype Action =
    | Login(approved: Option<string>)
    | GetKey(reply: Reply)
    | Exec(target: Option<Target>, command: seq<string>, reply: Reply, first: int, second: int)
    | TimePasses(seconds: nat)
    | CacheDamaged
    | CacheRemoved

  function Step(w: World, a: Action): World {
    match a
    case Login(approved) => LoggedInWorld(w, approved).0
    case GetKey(reply) => GotKey(w, reply).0
    case Exec(target, command, reply, first, second) => Executed(w, target, command, reply, first, second).0
    case TimePasses(seconds) => w.(now := w.now + seconds)
    case CacheDamaged => if w.cacheFile == Absent then w else w.(cacheFile := Unreadable)
    case CacheRemoved => w.(cacheFile := Absent)
  }

  function Steps(w: World, actions: seq<Action>): World
    decreases |actions|
  {
    if actions == [] then w else Step(Steps(w, actions[..|actions| - 1]), actions[|actions| - 1])
  }

  function Installed(now: int): World {
    World(None, Absent, map[], now, [])
  }

  // ---------------------------------------------------------------- what the log says

  function Last(log: seq<Event>): Event
    requires log != []
  {
    log[|log| - 1]
  }

  function Init(log: seq<Event>): seq<Event>
    requires log != []
  {
    log[..|log| - 1]
  }

  /** The newest key the server has handed out. */
  function NewestKey(log: seq<Event>): Option<Key> {
    if log == [] then None
    else if Last(log).Asked? && Last(log).reply.Fetched? then Some(Last(log).reply.key)
    else NewestKey(Init(log))
  }

  /** The credential under which it did. */
  function NewestKeyOwner(log: seq<Event>): Option<string> {
    if log == [] then None
    else if Last(log).Asked? && Last(log).reply.Fetched? then Some(Last(log).credential)
    else NewestKeyOwner(Init(log))
  }

  /** The credential that the log leaves in force: granted by a login, ended by a 401 after which it
      was cleared. */
  function InForce(log: seq<Event>): Option<string> {
    if log == [] then None
    else match Last(log)
         case LoggedIn(c) => Some(c)
         case Asked(_, Rejected(true)) => None
         case _ => InForce(Init(log))
  }

  /** The credential of the last login since the newest key was handed out. */
  function LoginSinceNewestKey(log: seq<Event>): Option<string> {
    if log == [] || (Last(log).Asked? && Last(log).reply.Fetched?) then None
    else if Last(log).LoggedIn? then Some(Last(log).credential)
    else LoginSinceNewestKey(Init(log))
  }

  /** A secret may be used when it is the newest one, and unexpired or fetched just before. */
  predicate MayUse(before: seq<Event>, secret: string, at: int) {
    && NewestKey(before).Some? && NewestKey(before).value.secret == secret
    && (NewestKey(before).value.validUntil > at || (Last(before).Asked? && Last(before).reply.Fetched?))
  }

  predicate EventOk(before: seq<Event>, e: Event) {
    match e
    case LoggedIn(_) => true
    case Asked(c, _) => InForce(before) == Some(c)
    case Ran(command, secret, _, at) => command != [] && MayUse(before, secret, at)
    case Shown(secret, at) => MayUse(before, secret, at)
  }

  /** Every event was allowed by the events before it. */
  ghost predicate LogOk(log: seq<Event>) {
    forall i :: 0 <= i < |log| ==> EventOk(log[..i], log[i])
  }

  ghost predicate Inv(w: World) {
    && LogOk(w.log)
    && w.credential == InForce(w.log)
    && (w.cacheFile.Stored? ==> NewestKey(w.log) == Some(w.cacheFile.key))
    && (w.credential == None ==> w.cacheFile == Absent)
  }

  lemma LogOkSnoc(log: seq<Event>, e: Event)
    requires LogOk(log) && EventOk(log, e)
    ensures LogOk(log + [e])
  {
    forall i | 0 <= i < |log + [e]| ensures EventOk((log + [e])[..i], (log + [e])[i]) {
      if i < |log| {
        assert (log + [e])[..i] == log[..i];
      } else {
        assert (log + [e])[..i] == log;
      }
    }
  }

  lemma Snoc(log: seq<Event>, e: Event)
    ensures Last(log + [e]) == e && Init(log + [e]) == log
  {
  }

  lemma LogKeepsInv(w: World, e: Event)
    requires Inv(w) && (e.Ran? || e.Shown?) && EventOk(w.log, e)
    ensures Inv(Log(w, e))
  {
    Snoc(w.log, e);
    LogOkSnoc(w.log, e);
  }

  lemma RefreshedKeepsInv(w: World, reply: Reply)
    requires Inv(w)
    ensures var (next, key) := Refreshed(w, reply);
            Inv(next) && (key.Got? ==> MayUse(next.log, key.value.secret, next.now) && next.credential.Some?)
  {
    if w.credential.Some? {
      var e := Asked(w.credential.value, reply);
      Snoc(w.log, e);
      LogOkSnoc(w.log, e);
    }
  }

  lemma ResolvedKeepsInv(w: World, reply: Reply)
    requires Inv(w)
    ensures var (next, key) := Resolved(w, reply);
            Inv(next) && (key.Got? ==> MayUse(next.log, key.value.secret, next.now))
  {
    RefreshedKeepsInv(w, reply);
  }

  lemma RunKeepsInv(w: World, target: Target, secret: string, command: seq<string>, exitCode: int)
    requires Inv(w) && MayUse(w.log, secret, w.now)
    ensures Inv(InjectAndRun(w, target, secret, command, exitCode).0)
  {
    if command != [] {
      LogKeepsInv(Injected(w, target, secret), Ran(command, secret, exitCode, w.now));
    }
  }

  lemma RetriedKeepsInv(w: World, target: Target, command: seq<string>, reply: Reply, exitCode: int)
    requires Inv(w)
    ensures Inv(Retried(w, target, command, reply, exitCode).0)
  {
    var bare := w.(cacheFile := Absent);
    RefreshedKeepsInv(bare, reply);
    var (next, key) := Refreshed(bare, reply);
    if key.Got? {
      RunKeepsInv(next, target, key.value.secret, command, exitCode);
    }
  }

  /** An `exec` ends where a key could not be had, after the first run, or after the retry. */
  lemma ExecutedEnds(w: World, target: Target, command: seq<string>, reply: Reply, first: int, second: int)
    ensures var (next, key) := Resolved(w, reply); var after := Executed(w, Some(target), command, reply, first, second).0;
            if key.Exit? then after == next
            else var ran := InjectAndRun(next, target, key.value.secret, command, first).0;
                 after == ran || after == Retried(ran, target, command, reply, second).0
  {
  }

  lemma ExecutedKeepsInv(w: World, target: Target, command: seq<string>, reply: Reply, first: int, second: int)
    requires Inv(w)
    ensures Inv(Executed(w, Some(target), command, reply, first, second).0)
  {
    ExecutedEnds(w, target, command, reply, first, second);
    ResolvedKeepsInv(w, reply);
    var (next, key) := Resolved(w, reply);
    if key.Got? {
      RunKeepsInv(next, target, key.value.secret, command, first);
      RetriedKeepsInv(InjectAndRun(next, target, key.value.secret, command, first).0, target, command, reply, second);
    }
  }

  lemma StepKeepsInv(w: World, a: Action)
    requires Inv(w)
    ensures Inv(Step(w, a))
  {
    match a
    case Login(approved) =>
      if approved.Some? {
        Snoc(w.log, LoggedIn(approved.value));
        LogOkSnoc(w.log, LoggedIn(approved.value));
      }
    case GetKey(reply) =>
      ResolvedKeepsInv(w, reply);
      var (next, key) := Resolved(w, reply);
      if key.Got? {
        LogKeepsInv(next, Shown(key.value.secret, next.now));
      }
    case Exec(target, command, reply, first, second) =>
      if target.Some? {
        ExecutedKeepsInv(w, target.value, command, reply, first, second);
      }
    case _ =>
  }

  /** Over every sequence of commands, replies, clock advances and cache losses: every secret used
      was the newest one the server had returned, unexpired or fetched just before; every request
      carried the credential in force; a cached key is the newest one and has a credential. */
  lemma {:induction false} EveryRunKeepsInv(now: int, actions: seq<Action>)
    ensures Inv(Steps(Installed(now), actions))
    decreases |actions|
  {
    if actions != [] {
      EveryRunKeepsInv(now, actions[..|actions| - 1]);
      StepKeepsInv(Steps(Installed(now), actions[..|actions| - 1]), actions[|actions| - 1]);
    }
  }

  // ---------------------------------------------------------------- after a 401

  predicate IsLogin(a: Action) {
    a.Login? && a.approved.Some?
  }

  lemma StaysLoggedOut(w: World, a: Action)
    requires w.credential == None && w.cacheFile == Absent && !IsLogin(a)
    ensures var next := Step(w, a);
            next.credential == None && next.cacheFile == Absent && next.log == w.log && next.files == w.files
  {
  }

  /** Once a 401 has emptied both stores, nothing is stored, sent, shown or run until the next login. */
  lemma {:induction false} NothingUntilNextLogin(w: World, actions: seq<Action>)
    requires w.credential == None && w.cacheFile == Absent
    requires forall a <- actions :: !IsLogin(a)
    ensures var next := Steps(w, actions);
            next.credential == None && next.cacheFile == Absent && next.log == w.log && next.files == w.files
    decreases |actions|
  {
    if actions != [] {
      NothingUntilNextLogin(w, actions[..|actions| - 1]);
      StaysLoggedOut(Steps(w, actions[..|actions| - 1]), actions[|actions| - 1]);
    }
  }

  /** A 401 empties both stores, whichever command meets it, exactly when the keychain lets the
      credential be cleared. Otherwise the login stays, and so does the cache, except that `exec` has
      dropped the key of a failed run. */
  lemma RejectionLogsOut(w: World, a: Action)
    requires Inv(w) && Step(w, a).log != w.log && Last(Step(w, a).log).Asked? && Last(Step(w, a).log).reply.Rejected?
    ensures var after := Step(w, a); var cleared := Last(after.log).reply.cleared;
            && (cleared <==> after.credential == None)
            && (cleared ==> after.cacheFile == Absent)
            && (!cleared ==> after.credential == w.credential &&
                             after.cacheFile == if a.Exec? && CacheHit(w).Some? then Absent else w.cacheFile)
  {
    StepKeepsInv(w, a);
  }

  // ---------------------------------------------------------------- exec

  function Asks(events: seq<Event>): nat {
    if events == [] then 0 else Asks(events[1..]) + if events[0].Asked? then 1 else 0
  }

  function Runs(events: seq<Event>): nat {
    if events == [] then 0 else Runs(events[1..]) + if events[0].Ran? then 1 else 0
  }

  lemma CountsOf(a: Event, b: Event, c: Event)
    ensures Asks([a]) == (if a.Asked? then 1 else 0) && Runs([a]) == (if a.Ran? then 1 else 0)
    ensures Asks([a, b]) == Asks([a]) + Asks([b]) && Runs([a, b]) == Runs([a]) + Runs([b])
    ensures Asks([a, b, c]) == Asks([a]) + Asks([b]) + Asks([c]) && Runs([a, b, c]) == Runs([a]) + Runs([b]) + Runs([c])
  {
    assert [a, b][1..] == [b] && [a, b, c][1..] == [b, c] && [b, c][1..] == [c];
  }

  /** What happened after `w`. */
  function Since(w: World, after: World): seq<Event>
    requires w.log <= after.log
  {
    after.log[|w.log|..]
  }

  predicate EndsWithRun(events: seq<Event>) {
    events != [] && Last(events).Ran?
  }

  lemma SinceIs(w: World, after: World, events: seq<Event>)
    requires after.log == w.log + events
    ensures w.log <= after.log && Since(w, after) == events
  {
  }

  /** The events of one `exec`, read off the state before it. */
  function Story(w: World, command: seq<string>, reply: Reply, first: int, second: int): seq<Event> {
    var asked := if w.credential == None then [] else [Asked(w.credential.value, reply)];
    var hit := CacheHit(w);
    if hit.Some? && command == [] then []
    else if hit.Some? && (first == 0 || w.credential == None) then [Ran(command, hit.value.secret, first, w.now)]
    else if hit.Some? && reply.Fetched? then
      [Ran(command, hit.value.secret, first, w.now), Asked(w.credential.value, reply),
       Ran(command, reply.key.secret, second, w.now)]
    else if hit.Some? then [Ran(command, hit.value.secret, first, w.now), Asked(w.credential.value, reply)]
    else if w.credential.Some? && reply.Fetched? && command != [] then
      [Asked(w.credential.value, reply), Ran(command, reply.key.secret, first, w.now)]
    else asked
  }

  lemma ExecTells(w: World, target: Target, command: seq<string>, reply: Reply, first: int, second: int)
    ensures Executed(w, Some(target), command, reply, first, second).0.log == w.log + Story(w, command, reply, first, second)
  {
  }

  lemma StoryCounts(w: World, command: seq<string>, reply: Reply, first: int, second: int)
    requires CacheHit(w).Some? ==> w.credential.Some?
    ensures var events, hit := Story(w, command, reply, first, second), CacheHit(w);
            && Asks(events) == (if w.credential.Some? && (hit == None || (command != [] && first != 0)) then 1 else 0)
            && Runs(events) == (if command == [] then 0
                                else if hit == None then (if w.credential.Some? && reply.Fetched? then 1 else 0)
                                else if first != 0 && reply.Fetched? then 2 else 1)
  {
    var events := Story(w, command, reply, first, second);
    if |events| > 0 {
      CountsOf(events[0], events[0], events[0]);
      assert |events| == 1 ==> events == [events[0]];
      if |events| > 1 {
        CountsOf(events[0], events[1], events[1]);
        CountsOf(events[1], events[1], events[1]);
        assert |events| == 2 ==> events == [events[0], events[1]];
        if |events| > 2 {
          CountsOf(events[0], events[1], events[2]);
          CountsOf(events[2], events[2], events[2]);
          assert events == [events[0], events[1], events[2]];
        }
      }
    }
  }

  /** One `exec` makes at most one request and at most two runs. It asks exactly when the cache
      misses or a cached run fails; it runs twice exactly when a cached run fails and the server
      then returns a key, the second time with that key. */
  lemma ExecReport(w: World, target: Target, command: seq<string>, reply: Reply, first: int, second: int)
    requires Inv(w)
    ensures var after, hit := Executed(w, Some(target), command, reply, first, second).0, CacheHit(w);
            && w.log <= after.log
            && var events := Since(w, after);
            && Asks(events) <= 1 && Runs(events) <= 2
            && (Asks(events) == 1 <==> w.credential.Some? && (hit == None || (command != [] && first != 0)))
            && (Runs(events) == 2 <==> hit.Some? && command != [] && first != 0 && reply.Fetched?)
            && (Runs(events) == 2 ==>
                  events == [Ran(command, hit.value.secret, first, w.now), Asked(w.credential.value, reply),
                             Ran(command, reply.key.secret, second, w.now)])
  {
    ExecTells(w, target, command, reply, first, second);
    StoryCounts(w, command, reply, first, second);
    SinceIs(w, Executed(w, Some(target), command, reply, first, second).0, Story(w, command, reply, first, second));
  }

  /** The code of the last run among the events. */
  function LastCode(events: seq<Event>): Option<int> {
    if events == [] then None
    else if Last(events).Ran? then Some(Last(events).exitCode)
    else LastCode(Init(events))
  }

  /** `exec` exits with the code of its last run, unless a cached run failed with a code other than
      1 and no fresh key could be had: then that code is lost and 1 is reported. */
  lemma ExitCodeIsOfTheLastRunIff(w: World, target: Target, command: seq<string>, reply: Reply, first: int, second: int)
    requires Inv(w)
    ensures var (after, exitCode) := Executed(w, Some(target), command, reply, first, second);
            && w.log <= after.log
            && var code := LastCode(Since(w, after));
            && (code == None ==>
                  exitCode == if command == [] && (CacheHit(w).Some? || (w.credential.Some? && reply.Fetched?)) then 2 else 1)
            && (code.Some? ==> (exitCode == code.value <==>
                                  !(CacheHit(w).Some? && first != 0 && first != 1 && !reply.Fetched?)))
  {
    ExecTells(w, target, command, reply, first, second);
    var events := Story(w, command, reply, first, second);
    SinceIs(w, Executed(w, Some(target), command, reply, first, second).0, events);
    if |events| == 2 {
      assert Init(events) == [events[0]];
    } else if |events| == 1 {
      assert Init(events) == [];
    }
  }

  /** The cache entry that a failed run was given from is dropped, or replaced by what the server then
      returns. The same key is back in the cache exactly when the server hands it out again. */
  lemma FailedRunForgetsItsKey(w: World, target: Target, command: seq<string>, reply: Reply, first: int, second: int)
    requires Inv(w) && CacheHit(w).Some? && command != [] && first != 0
    ensures var after := Executed(w, Some(target), command, reply, first, second).0;
            && after.cacheFile == (if reply.Fetched? then Stored(reply.key) else Absent)
            && (after.cacheFile == Stored(CacheHit(w).value) <==> reply == Fetched(CacheHit(w).value))
  {
  }

  function WithFile(files: map<string, string>, path: string, template: seq<Piece>, secret: string): map<string, string> {
    files[path := Fill(template, secret)]
  }

  lemma RetriedFiles(w: World, path: string, template: seq<Piece>, command: seq<string>, reply: Reply, exitCode: int)
    ensures Retried(w, FileAt(path, template), command, reply, exitCode).0.files ==
              if w.credential.Some? && reply.Fetched? then WithFile(w.files, path, template, reply.key.secret) else w.files
  {
  }

  /** In file mode the file holds the secret of the last run, or the one an empty command was
      refused with; no other file is touched. */
  lemma ExecInjects(w: World, path: string, template: seq<Piece>, command: seq<string>, reply: Reply, first: int, second: int)
    ensures var after, events := Executed(w, Some(FileAt(path, template)), command, reply, first, second).0,
                                 Story(w, command, reply, first, second);
            after.files ==
              if LastSecret(events).Some? then WithFile(w.files, path, template, LastSecret(events).value)
              else if command == [] && CacheHit(w).Some? then WithFile(w.files, path, template, CacheHit(w).value.secret)
              else if command == [] && w.credential.Some? && reply.Fetched? then WithFile(w.files, path, template, reply.key.secret)
              else w.files
  {
    var events := Story(w, command, reply, first, second);
    if CacheHit(w).Some? && command != [] {
      var files := WithFile(w.files, path, template, CacheHit(w).value.secret);
      var ran := InjectAndRun(w, FileAt(path, template), CacheHit(w).value.secret, command, first).0;
      assert ran.files == files && ran.credential == w.credential;
      RetriedFiles(ran, path, template, command, reply, second);
      if reply.Fetched? {
        assert WithFile(files, path, template, reply.key.secret) == WithFile(w.files, path, template, reply.key.secret);
      }
    }
    if |events| == 2 {
      assert Init(events) == [events[0]];
    }
  }

  /** The secret of the last run among the events. */
  function LastSecret(events: seq<Event>): Option<string> {
    if events == [] then None
    else if Last(events).Ran? then Some(Last(events).secret)
    else LastSecret(Init(events))
  }

  // ---------------------------------------------------------------- a cached key stays and serves

  predicate AsksIn(events: seq<Event>) {
    exists e <- events :: e.Asked?
  }

  /** What `events` say of the cache file before and after them. */
  ghost predicate CacheFollows(was: CacheFile, events: seq<Event>, after: CacheFile) {
    && (!AsksIn(events) ==> after == was)
    && (forall c, k :: Asked(c, Fetched(k)) in events ==> after == Stored(k))
  }

  lemma ExecCacheFollows(w: World, target: Target, command: seq<string>, reply: Reply, first: int, second: int)
    requires w.credential == None ==> w.cacheFile == Absent
    ensures CacheFollows(w.cacheFile, Story(w, command, reply, first, second),
                         Executed(w, Some(target), command, reply, first, second).0.cacheFile)
  {
    var events := Story(w, command, reply, first, second);
    assert |events| > 0 ==> events[0] in events;
    assert |events| > 1 ==> events[1] in events;
  }

  lemma GetKeyCacheFollows(w: World, reply: Reply)
    ensures w.log <= GotKey(w, reply).0.log
    ensures CacheFollows(w.cacheFile, Since(w, GotKey(w, reply).0), GotKey(w, reply).0.cacheFile)
  {
    GetKeyTells(w, reply);
    var events := Since(w, GotKey(w, reply).0);
    assert |events| > 0 ==> events[0] in events;
  }

  /** A command that sends no request leaves the cache as it was; one that brings a key leaves that key
      in it. */
  lemma CacheChangesOnlyByAsking(w: World, a: Action)
    requires Inv(w) && !a.CacheDamaged? && !a.CacheRemoved?
    ensures var after := Step(w, a);
            && w.log <= after.log
            && (!(exists e <- Since(w, after) :: e.Asked?) ==> after.cacheFile == w.cacheFile)
            && (forall c, k :: Asked(c, Fetched(k)) in Since(w, after) ==> after.cacheFile == Stored(k))
  {
    var after := Step(w, a);
    match a
    case Exec(Some(target), command, reply, first, second) =>
      ExecCacheFollows(w, target, command, reply, first, second);
      ExecTells(w, target, command, reply, first, second);
      SinceIs(w, after, Story(w, command, reply, first, second));
    case GetKey(reply) => GetKeyCacheFollows(w, reply);
    case _ =>
  }

  /** With an unexpired key in the cache file, `get-key` shows its secret and exits 0; otherwise it
      sends one request, shows the secret that comes back and exits 0, or exits 1 showing nothing. */
  lemma GetKeyTells(w: World, reply: Reply)
    ensures var (after, exitCode) := GotKey(w, reply);
            && w.log <= after.log
            && var events := Since(w, after);
            if w.cacheFile.Stored? && w.now < w.cacheFile.key.validUntil then
              exitCode == 0 && events == [Shown(w.cacheFile.key.secret, w.now)]
            else if w.credential == None then
              exitCode == 1 && events == []
            else if reply.Fetched? then
              exitCode == 0 && events == [Asked(w.credential.value, reply), Shown(reply.key.secret, w.now)]
            else
              exitCode == 1 && events == [Asked(w.credential.value, reply)]
  {
  }

  /** With an unexpired key in the cache file, `exec` gives that key to the command. */
  lemma ExecUsesTheCachedKey(w: World, target: Target, command: seq<string>, reply: Reply, second: int)
    requires w.cacheFile.Stored? && w.now < w.cacheFile.key.validUntil && command != []
    ensures var (after, exitCode) := Executed(w, Some(target), command, reply, 0, second);
            && exitCode == 0 && after.cacheFile == w.cacheFile && after.credential == w.credential
            && after.log == w.log + [Ran(command, w.cacheFile.key.secret, 0, w.now)]
  {
  }

  /** Commands that a valid cached key can serve. A login is among them: it leaves the cache alone. */
  predicate Servable(a: Action) {
    || a.GetKey? || a.TimePasses? || a.Login?
    || (a.Exec? && a.first == 0)
  }

  predicate UsesOnly(secret: string, events: seq<Event>) {
    forall e <- events :: !e.Asked? && (e.Ran? ==> e.secret == secret) && (e.Shown? ==> e.secret == secret)
  }

  /** One secret is used for each `get-key`, and for each `exec` with a target and a command. */
  function Demands(actions: seq<Action>): nat
    decreases |actions|
  {
    if actions == [] then 0
    else
      var a := actions[|actions| - 1];
      Demands(actions[..|actions| - 1]) + if a.GetKey? || (a.Exec? && a.target.Some? && a.command != []) then 1 else 0
  }

  function Uses(events: seq<Event>): nat
    decreases |events|
  {
    if events == [] then 0 else Uses(Init(events)) + if Last(events).Ran? || Last(events).Shown? then 1 else 0
  }

  lemma ServedStep(w: World, a: Action)
    requires w.cacheFile.Stored? && w.now < w.cacheFile.key.validUntil && Servable(a)
    ensures var after := Step(w, a);
            && after.cacheFile == w.cacheFile && after.now >= w.now
            && (after.log == w.log ||
                exists e :: after.log == w.log + [e] && UsesOnly(w.cacheFile.key.secret, [e]))
            && Uses(after.log) == Uses(w.log) + Demands([a])
  {
    var after := Step(w, a);
    if after.log != w.log {
      var e := Last(after.log);
      assert after.log == w.log + [e];
      Snoc(w.log, e);
    }
    assert Demands([a][..0]) == 0;
  }

  /** From a cached key, any `get-key`s, logins and successful `exec`s send no request for as long as it
      is valid; all of them use its secret, and it stays cached. */
  lemma {:induction false} ValidKeyServes(w: World, actions: seq<Action>)
    requires w.cacheFile.Stored? && (forall a <- actions :: Servable(a))
    requires Steps(w, actions).now < w.cacheFile.key.validUntil
    ensures var after := Steps(w, actions);
            && after.cacheFile == w.cacheFile && w.now <= after.now && w.log <= after.log
            && UsesOnly(w.cacheFile.key.secret, Since(w, after))
            && Uses(after.log) == Uses(w.log) + Demands(actions)
    decreases |actions|
  {
    if actions != [] {
      var before, a := actions[..|actions| - 1], actions[|actions| - 1];
      var mid := Steps(w, before);
      NowGrows(mid, a);
      ValidKeyServes(w, before);
      ServedStep(mid, a);
      var after := Step(mid, a);
      if after.log != mid.log {
        var e :| after.log == mid.log + [e] && UsesOnly(w.cacheFile.key.secret, [e]);
        assert Since(w, after) == Since(w, mid) + [e];
        assert e in [e];
      }
      assert [a][..0] == [] && [a][0] == a;
    }
  }

  lemma NowGrows(w: World, a: Action)
    ensures w.now <= Step(w, a).now
  {
  }

  /** A template is written piece by piece: its text as it is, the secret where it is named. */
  lemma {:induction false} FillIsPiecewise(a: seq<Piece>, b: seq<Piece>, text: string, secret: string)
    ensures Fill([TheSecret], secret) == secret && Fill([Literal(text)], secret) == text && Fill([], secret) == ""
    ensures Fill(a + b, secret) == Fill(a, secret) + Fill(b, secret)
  {
    assert Fill([TheSecret], secret) == secret + "";
    assert Fill([Literal(text)], secret) == text + "";
    if a == [] {
      assert [] + b == b;
    } else {
      FillIsPiecewise(a[1..], b, text, secret);
      assert (a + b)[1..] == a[1..] + b;
    }
  }

  // ---------------------------------------------------------------- whose key is it

  lemma {:induction false} NewestKeyHasOwner(log: seq<Event>)
    ensures NewestKey(log).Some? <==> NewestKeyOwner(log).Some?
  {
    if log != [] {
      NewestKeyHasOwner(Init(log));
    }
  }

  /** While a key is cached, the credential in force is its owner's unless a login came in between. */
  lemma {:induction false} InForceSinceNewestKey(log: seq<Event>)
    requires LogOk(log) && NewestKey(log).Some? && InForce(log).Some?
    ensures LoginSinceNewestKey(log) == None ==> NewestKeyOwner(log) == InForce(log)
    ensures LoginSinceNewestKey(log).Some? ==> LoginSinceNewestKey(log) == InForce(log)
  {
    assert EventOk(Init(log), Last(log));
    if !(Last(log).Asked? && Last(log).reply.Fetched?) && !Last(log).LoggedIn? {
      assert forall i :: 0 <= i < |Init(log)| ==> Init(log)[..i] == log[..i];
      InForceSinceNewestKey(Init(log));
    }
  }

  /** A cached key was handed out under the stored credential exactly when no login has come in
      between, or the last one granted the same credential again: `login` leaves the cache alone. */
  lemma CachedKeyIsOfThisLoginIff(now: int, actions: seq<Action>)
    requires Steps(Installed(now), actions).cacheFile.Stored?
    ensures var w := Steps(Installed(now), actions);
            && NewestKeyOwner(w.log).Some?
            && (NewestKeyOwner(w.log) == w.credential <==>
                  LoginSinceNewestKey(w.log) == None || LoginSinceNewestKey(w.log) == NewestKeyOwner(w.log))
  {
    EveryRunKeepsInv(now, actions);
    NewestKeyHasOwner(Steps(Installed(now), actions).log);
    InForceSinceNewestKey(Steps(Installed(now), actions).log);
  }

  /** A command run after a new login can still be given the key of the login before. */
  lemma NewLoginOldKey(w: World, login: string, target: Target, command: seq<string>)
    requires Inv(w) && CacheHit(w).Some? && command != []
    ensures var next := Step(w, Login(Some(login)));
            && next.credential == Some(login) && NewestKeyOwner(next.log) == NewestKeyOwner(w.log)
            && Executed(next, Some(target), command, Failed, 0, 0).0.log ==
                 next.log + [Ran(command, CacheHit(w).value.secret, 0, w.now)]
  {
    var next := Step(w, Login(Some(login)));
    Snoc(w.log, LoggedIn(login));
    ExecTells(next, target, command, Failed, 0, 0);
  }

  // ---------------------------------------------------------------- two runs from a fresh installation

  lemma StepsSnoc(w: World, actions: seq<Action>, a: Action)
    ensures Steps(w, actions + [a]) == Step(Steps(w, actions), a)
  {
    assert (actions + [a])[..|actions|] == actions;
  }

  const KEY := Key("s", 10)
  const LOGIN_AND_GET_KEY: seq<Action> := [Login(Some("old"))] + [GetKey(Fetched(KEY))]

  /** After a login and a `get-key` there is a key in hand. */
  lemma KeyInHand()
    ensures var w := Steps(Installed(0), LOGIN_AND_GET_KEY);
            && Inv(w) && w.credential == Some("old") && CacheHit(w) == Some(KEY) && w.now == 0
            && NewestKeyOwner(w.log) == Some("old")
  {
    EveryRunKeepsInv(0, LOGIN_AND_GET_KEY);
    var w1 := LoggedInWorld(Installed(0), Some("old")).0;
    StepsSnoc(Installed(0), [], Login(Some("old")));
    assert [] + [Login(Some("old"))] == [Login(Some("old"))];
    StepsSnoc(Installed(0), [Login(Some("old"))], GetKey(Fetched(KEY)));
    var asked := w1.log + [Asked("old", Fetched(KEY))];
    Snoc(w1.log, Asked("old", Fetched(KEY)));
    Snoc(asked, Shown("s", 0));
    assert NewestKeyOwner(asked) == Some("old");
  }

  /** A command fails with code 3, the refresh fails too, and `exec` reports 1. */
  lemma ExitCodeIsLost()
    ensures var w := Steps(Installed(0), LOGIN_AND_GET_KEY);
            var (after, exitCode) := Executed(w, Some(EnvVar("V")), ["x"], Failed, 3, 0);
            w.log <= after.log && LastCode(Since(w, after)) == Some(3) && exitCode == 1
  {
    var w := Steps(Installed(0), LOGIN_AND_GET_KEY);
    KeyInHand();
    ExecTells(w, EnvVar("V"), ["x"], Failed, 3, 0);
    var events := [Ran(["x"], "s", 3, 0), Asked("old", Failed)];
    SinceIs(w, Executed(w, Some(EnvVar("V")), ["x"], Failed, 3, 0).0, events);
    assert Init(events) == [events[0]];
    ExitCodeIsOfTheLastRunIff(w, EnvVar("V"), ["x"], Failed, 3, 0);
  }

  /** A second login, and the next command is still given the key of the first. */
  lemma OldKeyIsUsed()
    ensures var again := LOGIN_AND_GET_KEY + [Login(Some("new"))];
            var w := Steps(Installed(0), again);
            && w.credential == Some("new") && NewestKeyOwner(w.log) == Some("old")
            && Steps(Installed(0), again + [Exec(Some(EnvVar("V")), ["x"], Failed, 0, 0)]).log ==
                 w.log + [Ran(["x"], "s", 0, 0)]
  {
    var w := Steps(Installed(0), LOGIN_AND_GET_KEY);
    var again := LOGIN_AND_GET_KEY + [Login(Some("new"))];
    KeyInHand();
    StepsSnoc(Installed(0), LOGIN_AND_GET_KEY, Login(Some("new")));
    NewLoginOldKey(w, "new", EnvVar("V"), ["x"]);
    StepsSnoc(Installed(0), again, Exec(Some(EnvVar("V")), ["x"], Failed, 0, 0));
  }

  /** The key expires, the server rejects the login, the keychain fails: both stores stay as they are. */
  lemma KeychainErrorKeepsTheLogin()
    ensures var w := Steps(Installed(0), LOGIN_AND_GET_KEY + [TimePasses(20)]);
            var after := Steps(Installed(0), LOGIN_AND_GET_KEY + [TimePasses(20)] + [GetKey(Rejected(false))]);
            && after.credential == Some("old") && after.cacheFile == Stored(KEY)
            && after.log == w.log + [Asked("old", Rejected(false))]
  {
    KeyInHand();
    StepsSnoc(Installed(0), LOGIN_AND_GET_KEY, TimePasses(20));
    StepsSnoc(Installed(0), LOGIN_AND_GET_KEY + [TimePasses(20)], GetKey(Rejected(false)));
  }
}
