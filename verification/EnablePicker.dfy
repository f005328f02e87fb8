/** The "select models to enable" flow (frontend/src/components/model-enable-picker.tsx) next to the
    server's policy and to other admins who change it at any moment. */
module EnablePicker {
  import opened Options
  import opened PolicyCache

  /** The stored policy; the version counts the writes. */
  datatype Policy = Policy(mode: Mode, models: seq<string>, version: nat)

  datatype Entry = Entry(nativeId: string, routableAs: Option<string>)

  // ---------------------------------------------------------------- ordered sets

  predicate NoDuplicates(s: seq<string>) {
    forall i, j :: 0 <= i < j < |s| ==> s[i] != s[j]
  }

  function Elements(s: seq<string>): set<string> {
    set x | x in s
  }

  /** Adding to a set that remembers the order of insertion. */
  function Added(s: seq<string>, x: string): (r: seq<string>)
    ensures NoDuplicates(s) ==> NoDuplicates(r)
    ensures Elements(r) == Elements(s) + {x}
  {
    if x in s then s else s + [x]
  }

  function Removed(s: seq<string>, x: string): (r: seq<string>)
    ensures forall y :: y in r <==> y in s && y != x
    ensures NoDuplicates(s) ==> NoDuplicates(r)
  {
    if s == [] then []
    else if s[|s| - 1] == x then Removed(s[..|s| - 1], x)
    else
      var rest := Removed(s[..|s| - 1], x);
      assert NoDuplicates(s) ==> s[|s| - 1] !in s[..|s| - 1];
      rest + [s[|s| - 1]]
  }

  function Flipped(s: seq<string>, x: string): seq<string> {
    if x in s then Removed(s, x) else s + [x]
  }

  lemma FlipsOne(s: seq<string>, x: string)
    ensures Elements(Flipped(s, x)) == if x in s then Elements(s) - {x} else Elements(s) + {x}
    ensures x in Flipped(s, x) <==> x !in s
  {
  }

  /** The set of the elements of a list, in order of first occurrence. */
  function Distinct(s: seq<string>): (r: seq<string>)
    ensures NoDuplicates(r) && Elements(r) == Elements(s)
  {
    if s == [] then []
    else
      assert s == s[..|s| - 1] + [s[|s| - 1]];
      Added(Distinct(s[..|s| - 1]), s[|s| - 1])
  }

  lemma {:induction false} DistinctKeepsOrder(s: seq<string>)
    requires NoDuplicates(s)
    ensures Distinct(s) == s
  {
    if s != [] {
      var rest := s[..|s| - 1];
      DistinctKeepsOrder(rest);
      assert s[|s| - 1] !in rest;
      assert s == rest + [s[|s| - 1]];
    }
  }

  lemma {:induction false} DistinctAppends(s: seq<string>, t: seq<string>)
    ensures Distinct(s) <= Distinct(s + t)
    decreases |t|
  {
    if t == [] {
      assert s + t == s;
    } else {
      var rest := t[..|t| - 1];
      DistinctAppends(s, rest);
      assert (s + t)[..|s + t| - 1] == s + rest;
      assert Distinct(s + rest) <= Distinct(s + t);
    }
  }

  /** A merge keeps the allowlist as it is and appends; a replacement is the staged names as they are. */
  lemma MergedKeepsOrder(latest: Policy, names: seq<string>)
    ensures latest.mode == Allowlist && NoDuplicates(latest.models) ==> latest.models <= Merged(latest, names)
    ensures latest.mode != Allowlist && NoDuplicates(names) ==> Merged(latest, names) == names
  {
    DistinctAppends(latest.models, names);
    if NoDuplicates(latest.models) {
      DistinctKeepsOrder(latest.models);
    }
    if NoDuplicates(names) {
      DistinctKeepsOrder(names);
    }
  }

  /** What a PUT will carry: merged into an allowlist as just read, or the staged names alone. */
  function Merged(latest: Policy, names: seq<string>): seq<string> {
    if latest.mode == Allowlist then Distinct(latest.models + names) else Distinct(names)
  }

  // ---------------------------------------------------------------- the component

  datatype Picker = Picker(
    staged: seq<string>,
    resolvedNames: map<string, string>,
    registering: Option<Entry>,
    verifying: Option<Entry>,
    pending: Option<seq<string>>,
    submitting: bool,
    error: bool,
    closed: bool)

  function RoutableName(p: Picker, e: Entry): Option<string> {
    if e.routableAs.Some? then e.routableAs
    else if e.nativeId in p.resolvedNames then Some(p.resolvedNames[e.nativeId]) else None
  }

  function Toggled(p: Picker, e: Entry): Picker {
    var name := RoutableName(p, e);
    if name == None then p.(registering := Some(e))
    else p.(staged := Flipped(p.staged, name.value))
  }

  /** Toggling an entry with a name flips that name and no other; doing it twice changes nothing. */
  lemma ToggleFlipsOne(p: Picker, e: Entry)
    requires RoutableName(p, e).Some?
    ensures var name, q := RoutableName(p, e).value, Toggled(p, e);
            && Elements(q.staged) == (if name in p.staged then Elements(p.staged) - {name} else Elements(p.staged) + {name})
            && Elements(Toggled(q, e).staged) == Elements(p.staged)
            && q == p.(staged := q.staged)
  {
    var name := RoutableName(p, e).value;
    FlipsOne(p.staged, name);
    FlipsOne(Flipped(p.staged, name), name);
  }

  /** The end of a live verification: a name is staged only when it was verified. */
  function Verified(p: Picker, name: Option<string>): Picker
    requires p.verifying.Some?
  {
    if name == None then p.(verifying := None)
    else p.(resolvedNames := p.resolvedNames[p.verifying.value.nativeId := name.value],
            staged := Added(p.staged, name.value),
            verifying := None)
  }

  class EnablePickerForm {
    var staged: seq<string>
    var resolvedNames: map<string, string>
    var registering: Option<Entry>
    var verifying: Option<Entry>
    var pending: Option<seq<string>>
    var submitting: bool
    var error: bool
    var closed: bool

    function Now(): Picker
      reads this
    {
      Picker(staged, resolvedNames, registering, verifying, pending, submitting, error, closed)
    }

    constructor ()
      ensures Now() == Opened()
    {
      staged, resolvedNames, registering, verifying := [], map[], None, None;
      pending, submitting, error, closed := None, false, false, false;
    }

    method Toggle(e: Entry)
      modifies this
      ensures Now() == Toggled(old(Now()), e)
      ensures RoutableName(old(Now()), e) == None ==> registering == Some(e) && staged == old(staged)
    {
      var name := RoutableName(Now(), e);
      if name == None {
        registering := Some(e);
        return;
      }
      if name.value in staged {
        staged := Removed(staged, name.value);
      } else {
        staged := staged + [name.value];
      }
    }

    method OnVerified(name: Option<string>)
      requires verifying.Some?
      modifies this
      ensures Now() == Verified(old(Now()), name)
      ensures verifying == None && pending == old(pending) && closed == old(closed)
      ensures name == None ==> staged == old(staged) && resolvedNames == old(resolvedNames)
      ensures name.Some? ==> Elements(staged) == Elements(old(staged)) + {name.value}
      ensures name.Some? ==> resolvedNames == old(resolvedNames)[old(verifying.value.nativeId) := name.value]
    {
      if name.Some? {
        resolvedNames := resolvedNames[verifying.value.nativeId := name.value];
        staged := Added(staged, name.value);
      }
      verifying := None;
    }

    /** The click, up to the first read; the staged names are captured here. */
    method HandleSubmitClick() returns (names: seq<string>)
      modifies this
      ensures Now() == Submitting(old(Now())) && names == old(staged)
    {
      error := false;
      submitting := true;
      names := staged;
    }

    /** The answer to the first read: go on at once, or ask for confirmation. */
    method OnFirstRead(names: seq<string>, reply: Option<Policy>) returns (goOn: bool)
      modifies this
      ensures Now() == AfterFirstRead(old(Now()), names, reply)
      ensures goOn <==> reply.Some? && reply.value.mode == Allowlist
    {
      submitting := false;
      if reply == None {
        error := true;
        return false;
      }
      if reply.value.mode == Allowlist {
        FinalizeSubmit();
        return true;
      }
      pending := Some(Distinct(names));
      return false;
    }

    /** Up to the second read. */
    method FinalizeSubmit()
      modifies this
      ensures Now() == Submitting(old(Now()))
    {
      submitting := true;
      error := false;
    }

    /** The answer to the second read: what to write, if anything. */
    method OnSecondRead(names: seq<string>, reply: Option<Policy>) returns (models: Option<seq<string>>)
      modifies this
      ensures Now() == if reply == None then Failed(old(Now())) else Submitting(old(Now()))
      ensures models == if reply == None then None else Some(Merged(reply.value, names))
    {
      if reply == None {
        submitting := false;
        error := true;
        pending := None;
        return None;
      }
      var list := if reply.value.mode == Allowlist then Distinct(reply.value.models + names) else Distinct(names);
      submitting := true;
      error := false;
      return Some(list);
    }

    method OnPutAnswered(ok: bool)
      modifies this
      ensures Now() == if ok then Succeeded(old(Now())) else Failed(old(Now()))
      ensures !submitting && staged == old(staged)
      ensures ok ==> closed
      ensures !ok ==> error && pending == None && closed == old(closed)
    {
      if ok {
        closed := true;
      } else {
        error := true;
        pending := None;
      }
      submitting := false;
    }
  }

  function Opened(): Picker {
    Picker([], map[], None, None, None, false, false, false)
  }

  function Submitting(p: Picker): Picker {
    p.(submitting := true, error := false)
  }

  function AfterFirstRead(p: Picker, names: seq<string>, reply: Option<Policy>): Picker {
    if reply == None then p.(submitting := false, error := true)
    else if reply.value.mode == Allowlist then Submitting(p)
    else p.(submitting := false, pending := Some(Distinct(names)))
  }

  function Failed(p: Picker): Picker {
    p.(submitting := false, error := true, pending := None)
  }

  function Succeeded(p: Picker): Picker {
    p.(submitting := false, closed := true)
  }

  /** Which step is on screen. */
  predicate ShowsChecklist(p: Picker) {
    !p.closed && p.registering == None && p.verifying == None && p.pending == None
  }

  predicate ShowsDialog(p: Picker) {
    !p.closed && p.registering == None && p.verifying == None && p.pending.Some?
  }

  // ---------------------------------------------------------------- around the component

  /** A write as it was made: for which click, from which names and reads, with or without a
      confirmation, and over which policy. */
  datatype Write = Write(
    click: nat,
    models: seq<string>,
    names: seq<string>,
    first: Policy,
    latest: Policy,
    confirmed: bool,
    over: Policy)

  /** Where the one submission in progress is; `served` is what the server answered, not yet seen. */
  datatype Flow =
    | Idle
    | FirstRead(click: nat, names: seq<string>, served: Option<Policy>)
    | SecondRead(click: nat, names: seq<string>, confirmed: bool, served: Option<Policy>)
    | Putting(click: nat, models: seq<string>, names: seq<string>, confirmed: bool, latest: Policy, done: bool)

  datatype World = World(
    picker: Picker,
    flow: Flow,
    policy: Policy,
    first: Policy,              // the policy the last first read returned
    verified: set<string>,      // names the server has verified
    writes: seq<Write>,         // this picker's writes
    asked: nat,                 // the click that the last dialog belongs to
    clicked: seq<seq<string>>)  // the names staged at each click, the first one being number 0

  datatype Action =
    | Toggle(entry: Entry)
    | RegistrationSaved
    | RegistrationCancelled
    | VerificationAnswered(name: Option<string>)
    | SubmitClick
    | Confirm
    | Cancel
    | Close
    | ServerReads                        // the server answers the read in progress
    | ReplyArrives
    | ReplyLost
    | ServerPuts                         // the server carries out the write in progress
    | PutReplyArrives
    | PutFails
    | OtherAdminPuts(mode: Mode, models: seq<string>)

  function Written(policy: Policy, mode: Mode, models: seq<string>): Policy {
    Policy(mode, models, policy.version + 1)
  }

  /** Actions that the screen or the network does not offer leave the world as it is. */
  function Step(entries: set<Entry>, w: World, a: Action): World {
    var p := w.picker;
    match a
    case Toggle(e) =>
      if ShowsChecklist(p) && e in entries then w.(picker := Toggled(p, e)) else w
    case RegistrationSaved =>
      if !p.closed && p.registering.Some? then w.(picker := p.(verifying := p.registering, registering := None)) else w
    case RegistrationCancelled =>
      if !p.closed then w.(picker := p.(registering := None)) else w
    case VerificationAnswered(name) =>
      if !p.closed && p.registering == None && p.verifying.Some?
      then w.(picker := Verified(p, name), verified := if name.Some? then w.verified + {name.value} else w.verified)
      else w
    case SubmitClick =>
      if ShowsChecklist(p) && !p.submitting && p.staged != []
      then w.(picker := Submitting(p), flow := FirstRead(|w.clicked|, p.staged, None), clicked := w.clicked + [p.staged])
      else w
    case Confirm =>
      if ShowsDialog(p) && !p.submitting
      then w.(picker := Submitting(p), flow := SecondRead(w.asked, p.pending.value, true, None))
      else w
    case Cancel =>
      if ShowsDialog(p) then w.(picker := p.(pending := None)) else w
    case Close =>
      if ShowsChecklist(p) then w.(picker := p.(closed := true)) else w
    case ServerReads =>
      (match w.flow
       case FirstRead(click, names, None) => w.(flow := FirstRead(click, names, Some(w.policy)))
       case SecondRead(click, names, confirmed, None) => w.(flow := SecondRead(click, names, confirmed, Some(w.policy)))
       case _ => w)
    case ReplyArrives =>
      (match w.flow
       case FirstRead(click, names, Some(policy)) =>
         w.(picker := AfterFirstRead(p, names, Some(policy)), first := policy, asked := click,
            flow := if policy.mode == Allowlist then SecondRead(click, names, false, None) else Idle)
       case SecondRead(click, names, confirmed, Some(policy)) =>
         w.(picker := Submitting(p), flow := Putting(click, Merged(policy, names), names, confirmed, policy, false))
       case _ => w)
    case ReplyLost =>
      (match w.flow
       case FirstRead(_, names, _) => w.(picker := AfterFirstRead(p, names, None), flow := Idle)
       case SecondRead(_, _, _, _) => w.(picker := Failed(p), flow := Idle)
       case _ => w)
    case ServerPuts =>
      (match w.flow
       case Putting(click, models, names, confirmed, latest, false) =>
         w.(policy := Written(w.policy, Allowlist, models), flow := Putting(click, models, names, confirmed, latest, true),
            writes := w.writes + [Write(click, models, names, w.first, latest, confirmed, w.policy)])
       case _ => w)
    case PutReplyArrives =>
      if w.flow.Putting? && w.flow.done then w.(picker := Succeeded(p), flow := Idle) else w
    case PutFails =>
      if w.flow.Putting? then w.(picker := Failed(p), flow := Idle) else w
    case OtherAdminPuts(mode, models) => w.(policy := Written(w.policy, mode, models))
  }

  function Start(policy: Policy): World {
    World(Opened(), Idle, policy, policy, {}, [], 0, [])
  }

  function Steps(entries: set<Entry>, policy: Policy, actions: seq<Action>): World
    decreases |actions|
  {
    if actions == [] then Start(policy)
    else Step(entries, Steps(entries, policy, actions[..|actions| - 1]), actions[|actions| - 1])
  }

  // ---------------------------------------------------------------- what every run keeps

  /** Names the catalog lists as routable, and names the server has verified. */
  function Enableable(entries: set<Entry>, verified: set<string>): set<string> {
    (set e | e in entries && e.routableAs.Some? :: e.routableAs.value) + verified
  }

  ghost predicate NamesOk(entries: set<Entry>, w: World, names: seq<string>) {
    NoDuplicates(names) && Elements(names) <= Enableable(entries, w.verified)
  }

  /** One policy was in force no later than another, and is the same if nothing was written between. */
  predicate Earlier(a: Policy, b: Policy) {
    a.version <= b.version && (a.version == b.version ==> a == b)
  }

  ghost predicate WriteOk(entries: set<Entry>, w: World, put: Write) {
    && NamesOk(entries, w, put.names) && put.names != []
    && put.models == Merged(put.latest, put.names)
    && Earlier(put.first, put.latest) && Earlier(put.latest, put.over)
    && (put.confirmed <==> put.first.mode != Allowlist)
    && put.over.version < w.policy.version
  }

  ghost predicate FlowOk(entries: set<Entry>, w: World) {
    match w.flow
    case Idle => true
    case FirstRead(_, names, served) =>
      NamesOk(entries, w, names) && names != [] && w.picker.pending == None && (served.Some? ==> Earlier(served.value, w.policy))
    case SecondRead(_, names, confirmed, served) =>
      && NamesOk(entries, w, names) && names != [] && (confirmed <==> w.first.mode != Allowlist)
      && (served.Some? ==> Earlier(served.value, w.policy) && Earlier(w.first, served.value))
    case Putting(_, models, names, confirmed, latest, done) =>
      && NamesOk(entries, w, names) && names != [] && models == Merged(latest, names)
      && (confirmed <==> w.first.mode != Allowlist)
      && Earlier(latest, w.policy) && Earlier(w.first, latest)
  }

  /** Each click leads to at most one write: the one in progress has not been counted yet. */
  function Unwritten(f: Flow): nat {
    if f.FirstRead? || f.SecondRead? || (f.Putting? && !f.done) then 1 else 0
  }

  ghost predicate Inv(entries: set<Entry>, w: World) {
    && NamesOk(entries, w, w.picker.staged)
    && (forall k :: k in w.picker.resolvedNames ==> w.picker.resolvedNames[k] in w.verified)
    && Earlier(w.first, w.policy)
    && (w.picker.pending.Some? ==>
          NamesOk(entries, w, w.picker.pending.value) && w.picker.pending.value != [] && w.first.mode != Allowlist)
    && (w.flow != Idle <==> w.picker.submitting)
    && FlowOk(entries, w)
    && (forall i :: 0 <= i < |w.writes| ==> WriteOk(entries, w, w.writes[i]))
    && |w.writes| + Unwritten(w.flow) + Unconfirmed(w) <= |w.clicked|
  }

  /** The dialog still waits for an answer. */
  function Unconfirmed(w: World): nat {
    if w.picker.pending.Some? && !w.picker.closed && w.flow == Idle then 1 else 0
  }

  lemma NamesStayOk(entries: set<Entry>, w: World, after: World, names: seq<string>)
    requires NamesOk(entries, w, names) && w.verified <= after.verified
    ensures NamesOk(entries, after, names)
  {
  }

  /** Nothing but the picker's staged names and its step on screen changes. */
  lemma ScreenKeepsInv(entries: set<Entry>, w: World, after: World)
    requires Inv(entries, w) && w.verified <= after.verified
    requires after == w.(picker := after.picker, verified := after.verified)
    requires after.picker.pending == w.picker.pending && after.picker.submitting == w.picker.submitting
    requires after.picker.closed == w.picker.closed
    requires NamesOk(entries, after, after.picker.staged)
    requires forall k :: k in after.picker.resolvedNames ==> after.picker.resolvedNames[k] in after.verified
    ensures Inv(entries, after)
  {
    forall i | 0 <= i < |after.writes| ensures WriteOk(entries, after, after.writes[i]) {
      assert WriteOk(entries, w, w.writes[i]);
    }
  }

  lemma ToggledKeepsInv(entries: set<Entry>, w: World, e: Entry)
    requires Inv(entries, w) && e in entries
    ensures Inv(entries, w.(picker := Toggled(w.picker, e)))
  {
    var p, name := w.picker, RoutableName(w.picker, e);
    if name.Some? {
      assert name.value in Enableable(entries, w.verified);
    }
    ScreenKeepsInv(entries, w, w.(picker := Toggled(p, e)));
  }

  lemma VerifiedKeepsInv(entries: set<Entry>, w: World, name: Option<string>)
    requires Inv(entries, w) && w.picker.verifying.Some?
    ensures Inv(entries, w.(picker := Verified(w.picker, name),
                            verified := if name.Some? then w.verified + {name.value} else w.verified))
  {
    var after := w.(picker := Verified(w.picker, name),
                    verified := if name.Some? then w.verified + {name.value} else w.verified);
    NamesStayOk(entries, w, after, w.picker.staged);
    ScreenKeepsInv(entries, w, after);
  }

  /** A write by anyone: what was read before stays earlier. */
  lemma PolicyMovesOn(entries: set<Entry>, w: World, mode: Mode, models: seq<string>)
    requires Inv(entries, w)
    ensures Inv(entries, w.(policy := Written(w.policy, mode, models)))
  {
    var after := w.(policy := Written(w.policy, mode, models));
    forall i | 0 <= i < |after.writes| ensures WriteOk(entries, after, after.writes[i]) {
      assert WriteOk(entries, w, w.writes[i]);
    }
  }

  lemma WriteKeepsInv(entries: set<Entry>, w: World)
    requires Inv(entries, w) && w.flow.Putting? && !w.flow.done
    ensures Inv(entries, Step(entries, w, ServerPuts))
  {
    var after := Step(entries, w, ServerPuts);
    PolicyMovesOn(entries, w, Allowlist, w.flow.models);
    var moved := w.(policy := after.policy);
    forall i | 0 <= i < |after.writes| ensures WriteOk(entries, after, after.writes[i]) {
      if i < |w.writes| {
        assert WriteOk(entries, moved, moved.writes[i]);
      }
    }
  }

  /** The flow and the picker move on together; the writes stay. */
  lemma FlowKeepsInv(entries: set<Entry>, w: World, after: World)
    requires Inv(entries, w)
    requires after == w.(picker := after.picker, flow := after.flow, first := after.first, asked := after.asked, clicked := after.clicked)
    requires after.picker.staged == w.picker.staged && after.picker.resolvedNames == w.picker.resolvedNames
    requires Earlier(after.first, after.policy) && FlowOk(entries, after)
    requires after.flow != Idle <==> after.picker.submitting
    requires after.picker.pending.Some? ==>
               NamesOk(entries, after, after.picker.pending.value) && after.picker.pending.value != [] && after.first.mode != Allowlist
    requires |after.writes| + Unwritten(after.flow) + Unconfirmed(after) <= |after.clicked|
    ensures Inv(entries, after)
  {
    forall i | 0 <= i < |after.writes| ensures WriteOk(entries, after, after.writes[i]) {
      assert WriteOk(entries, w, w.writes[i]);
    }
  }

  lemma DistinctOk(entries: set<Entry>, w: World, names: seq<string>)
    requires NamesOk(entries, w, names) && names != []
    ensures NamesOk(entries, w, Distinct(names)) && Distinct(names) != []
  {
    assert names[0] in Elements(names);
    assert names[0] in Elements(Distinct(names));
  }

  lemma ReplyKeepsInv(entries: set<Entry>, w: World)
    requires Inv(entries, w)
    ensures Inv(entries, Step(entries, w, ReplyArrives))
  {
    if w.flow.FirstRead? && w.flow.served.Some? {
      DistinctOk(entries, w, w.flow.names);
    }
    FlowKeepsInv(entries, w, Step(entries, w, ReplyArrives));
  }

  lemma ClickKeepsInv(entries: set<Entry>, w: World, a: Action)
    requires Inv(entries, w) && (a.SubmitClick? || a.Confirm? || a.Cancel? || a.Close?)
    ensures Inv(entries, Step(entries, w, a))
  {
    FlowKeepsInv(entries, w, Step(entries, w, a));
  }

  lemma NetworkKeepsInv(entries: set<Entry>, w: World, a: Action)
    requires Inv(entries, w) && (a.ServerReads? || a.ReplyLost? || a.PutReplyArrives? || a.PutFails?)
    ensures Inv(entries, Step(entries, w, a))
  {
    FlowKeepsInv(entries, w, Step(entries, w, a));
  }

  lemma RegistrationKeepsInv(entries: set<Entry>, w: World, a: Action)
    requires Inv(entries, w) && (a.RegistrationSaved? || a.RegistrationCancelled?)
    ensures Inv(entries, Step(entries, w, a))
  {
    ScreenKeepsInv(entries, w, Step(entries, w, a));
  }

  lemma StepKeepsInv(entries: set<Entry>, w: World, a: Action)
    requires Inv(entries, w)
    ensures Inv(entries, Step(entries, w, a))
  {
    match a
    case Toggle(e) =>
      if e in entries {
        ToggledKeepsInv(entries, w, e);
      }
    case RegistrationSaved => RegistrationKeepsInv(entries, w, a);
    case RegistrationCancelled => RegistrationKeepsInv(entries, w, a);
    case VerificationAnswered(name) =>
      if w.picker.verifying.Some? {
        VerifiedKeepsInv(entries, w, name);
      }
    case ReplyArrives => ReplyKeepsInv(entries, w);
    case ServerPuts =>
      if w.flow.Putting? && !w.flow.done {
        WriteKeepsInv(entries, w);
      }
    case OtherAdminPuts(mode, models) => PolicyMovesOn(entries, w, mode, models);
    case SubmitClick => ClickKeepsInv(entries, w, a);
    case Confirm => ClickKeepsInv(entries, w, a);
    case Cancel => ClickKeepsInv(entries, w, a);
    case Close => ClickKeepsInv(entries, w, a);
    case _ => NetworkKeepsInv(entries, w, a);
  }

  lemma {:induction false} EveryRunKeepsInv(entries: set<Entry>, policy: Policy, actions: seq<Action>)
    ensures Inv(entries, Steps(entries, policy, actions))
    decreases |actions|
  {
    if actions != [] {
      EveryRunKeepsInv(entries, policy, actions[..|actions| - 1]);
      StepKeepsInv(entries, Steps(entries, policy, actions[..|actions| - 1]), actions[|actions| - 1]);
    }
  }

  // ---------------------------------------------------------------- what this means for every write

  /** Every write is a list without duplicates: the staged names, together with the allowlist as last
      read if it was one. Every staged name is in the catalog or verified. */
  lemma EveryWriteIsAUnion(entries: set<Entry>, policy: Policy, actions: seq<Action>, i: nat)
    requires i < |Steps(entries, policy, actions).writes|
    ensures var w := Steps(entries, policy, actions); var put := w.writes[i];
            && NoDuplicates(put.models) && put.names != []
            && Elements(put.models) ==
                 Elements(put.names) + (if put.latest.mode == Allowlist then Elements(put.latest.models) else {})
            && Elements(put.names) <= Enableable(entries, w.verified)
  {
    EveryRunKeepsInv(entries, policy, actions);
    var put := Steps(entries, policy, actions).writes[i];
    assert Elements(put.latest.models + put.names) == Elements(put.latest.models) + Elements(put.names);
  }

  /** A write removes a model from an allowlist exactly when the model was neither staged nor in an
      allowlist as just read; someone then wrote in between. */
  lemma OnlyWritesInBetweenAreLost(entries: set<Entry>, policy: Policy, actions: seq<Action>, i: nat, model: string)
    requires i < |Steps(entries, policy, actions).writes|
    requires var put := Steps(entries, policy, actions).writes[i];
             put.over.mode == Allowlist && model in put.over.models
    ensures var put := Steps(entries, policy, actions).writes[i];
            && (model !in put.models <==>
                  model !in put.names && (put.latest.mode != Allowlist || model !in put.latest.models))
            && (model !in put.models ==> put.latest.version < put.over.version)
  {
    EveryRunKeepsInv(entries, policy, actions);
    EveryWriteIsAUnion(entries, policy, actions, i);
    var put := Steps(entries, policy, actions).writes[i];
    assert model in put.models <==> model in Elements(put.models);
  }

  /** A write enters allowlist mode with no dialog only if the mode was allowlist at the first read
      and was left since: before the second read or after it. */
  lemma UnconfirmedSwitchNeedsAnotherAdmin(entries: set<Entry>, policy: Policy, actions: seq<Action>, i: nat)
    requires i < |Steps(entries, policy, actions).writes|
    ensures var put := Steps(entries, policy, actions).writes[i];
            && (put.confirmed <==> put.first.mode != Allowlist)
            && (!put.confirmed && put.over.mode != Allowlist ==>
                  put.first.mode == Allowlist && put.first.version < put.over.version)
            && (!put.confirmed && put.latest.mode != Allowlist ==>
                  put.first.mode == Allowlist && put.first.version < put.latest.version)
  {
    EveryRunKeepsInv(entries, policy, actions);
  }

  lemma StepsSnoc(entries: set<Entry>, policy: Policy, actions: seq<Action>, k: nat)
    requires k < |actions|
    ensures Steps(entries, policy, actions[..k + 1]) == Step(entries, Steps(entries, policy, actions[..k]), actions[k])
  {
    assert actions[..k + 1][..k] == actions[..k];
  }

  /** The j-th action writes the policy. */
  predicate WritesAt(entries: set<Entry>, policy: Policy, actions: seq<Action>, j: nat)
    requires j < |actions|
  {
    Steps(entries, policy, actions[..j + 1]).policy != Steps(entries, policy, actions[..j]).policy
  }

  ghost predicate LastWriteBefore(entries: set<Entry>, policy: Policy, actions: seq<Action>, j: nat, k: nat)
    requires j < k <= |actions|
  {
    WritesAt(entries, policy, actions, j) && forall i :: j < i < k ==> !WritesAt(entries, policy, actions, i)
  }

  lemma {:induction false} LastWriteIsInForce(entries: set<Entry>, policy: Policy, actions: seq<Action>, j: nat, k: nat)
    requires j < k <= |actions| && forall i :: j < i < k ==> !WritesAt(entries, policy, actions, i)
    ensures Steps(entries, policy, actions[..k]).policy == Steps(entries, policy, actions[..j + 1]).policy
    decreases k
  {
    if j + 1 < k {
      LastWriteIsInForce(entries, policy, actions, j, k - 1);
      assert !WritesAt(entries, policy, actions, k - 1);
    }
  }

  /** The policy is still the first one, or some write was the last. */
  lemma {:induction false} SomeWriteIsLast(entries: set<Entry>, policy: Policy, actions: seq<Action>, k: nat)
    requires k <= |actions|
    ensures Steps(entries, policy, actions[..k]).policy == policy ||
            exists j :: 0 <= j < k && LastWriteBefore(entries, policy, actions, j, k)
  {
    if k > 0 {
      SomeWriteIsLast(entries, policy, actions, k - 1);
      if WritesAt(entries, policy, actions, k - 1) {
        assert LastWriteBefore(entries, policy, actions, k - 1, k);
      } else if Steps(entries, policy, actions[..k - 1]).policy != policy {
        var j :| 0 <= j < k - 1 && LastWriteBefore(entries, policy, actions, j, k - 1);
        assert LastWriteBefore(entries, policy, actions, j, k);
      }
    }
  }

  /** Nothing read is older than the policy at the start. */
  predicate NotOlder(w: World, version: nat) {
    && version <= w.policy.version && version <= w.first.version
    && (w.flow.FirstRead? && w.flow.served.Some? ==> version <= w.flow.served.value.version)
  }

  lemma {:induction false} NothingReadIsOlder(entries: set<Entry>, policy: Policy, actions: seq<Action>, k: nat)
    requires k <= |actions|
    ensures NotOlder(Steps(entries, policy, actions[..k]), policy.version)
  {
    if k > 0 {
      NothingReadIsOlder(entries, policy, actions, k - 1);
      StepsSnoc(entries, policy, actions, k - 1);
      StepKeepsNotOlder(entries, Steps(entries, policy, actions[..k - 1]), actions[k - 1], policy.version);
    }
  }

  lemma StepKeepsNotOlder(entries: set<Entry>, w: World, a: Action, version: nat)
    requires NotOlder(w, version)
    ensures NotOlder(Step(entries, w, a), version)
  {
  }

  /** Since the policy that `first` tells was read, the last write before the k-th action was
      another admin's and left allowlist mode. */
  ghost predicate LeftSince(entries: set<Entry>, policy: Policy, actions: seq<Action>, first: Policy, k: nat)
    requires k <= |actions|
  {
    exists j :: 0 <= j < k && LastWriteBefore(entries, policy, actions, j, k)
      && actions[j].OtherAdminPuts? && actions[j].mode != Allowlist
      && first.version <= Steps(entries, policy, actions[..j]).policy.version
  }

  /** The k-th action carries out a write of this picker. */
  predicate PutsAt(entries: set<Entry>, policy: Policy, actions: seq<Action>, k: nat)
    requires k < |actions|
  {
    var f := Steps(entries, policy, actions[..k]).flow; actions[k].ServerPuts? && f.Putting? && !f.done
  }

  lemma WriterOf(entries: set<Entry>, policy: Policy, actions: seq<Action>, j: nat)
    requires j < |actions| && WritesAt(entries, policy, actions, j)
    ensures var before, after := Steps(entries, policy, actions[..j]).policy, Steps(entries, policy, actions[..j + 1]).policy;
            && after.version == before.version + 1
            && (actions[j].OtherAdminPuts? ==> after.mode == actions[j].mode)
            && (!actions[j].OtherAdminPuts? ==> after.mode == Allowlist)
  {
    StepsSnoc(entries, policy, actions, j);
  }

  lemma LeftSinceMeansLeft(entries: set<Entry>, policy: Policy, actions: seq<Action>, first: Policy, k: nat)
    requires k <= |actions| && LeftSince(entries, policy, actions, first, k)
    ensures Steps(entries, policy, actions[..k]).policy.mode != Allowlist
  {
    var j :| 0 <= j < k && LastWriteBefore(entries, policy, actions, j, k)
      && actions[j].OtherAdminPuts? && actions[j].mode != Allowlist
      && first.version <= Steps(entries, policy, actions[..j]).policy.version;
    LastWriteIsInForce(entries, policy, actions, j, k);
    WriterOf(entries, policy, actions, j);
  }

  lemma LeftMeansLeftSince(entries: set<Entry>, policy: Policy, actions: seq<Action>, k: nat)
    requires k <= |actions|
    requires var w := Steps(entries, policy, actions[..k]);
             w.policy.mode != Allowlist && w.first.mode == Allowlist && Earlier(w.first, w.policy)
    ensures LeftSince(entries, policy, actions, Steps(entries, policy, actions[..k]).first, k)
  {
    SomeWriteIsLast(entries, policy, actions, k);
    NothingReadIsOlder(entries, policy, actions, k);
    var j :| 0 <= j < k && LastWriteBefore(entries, policy, actions, j, k);
    LastWriteIsInForce(entries, policy, actions, j, k);
    WriterOf(entries, policy, actions, j);
  }

  /** Exactly when a write enters allowlist mode with no dialog: the mode was allowlist at the first
      read, and the last write since then was another admin's and left it, no matter on which side
      of the second read. */
  lemma UnconfirmedSwitchIff(entries: set<Entry>, policy: Policy, actions: seq<Action>, k: nat)
    requires k < |actions| && PutsAt(entries, policy, actions, k)
    ensures var w, after := Steps(entries, policy, actions[..k]), Steps(entries, policy, actions[..k + 1]);
            && after.policy.mode == Allowlist
            && (!w.flow.confirmed && w.policy.mode != Allowlist <==>
                  w.first.mode == Allowlist && LeftSince(entries, policy, actions, w.first, k))
  {
    var w := Steps(entries, policy, actions[..k]);
    PutAt(entries, policy, actions, k);
    if w.first.mode == Allowlist && LeftSince(entries, policy, actions, w.first, k) {
      LeftSinceMeansLeft(entries, policy, actions, w.first, k);
    }
    if w.first.mode == Allowlist && w.policy.mode != Allowlist {
      LeftMeansLeftSince(entries, policy, actions, k);
    }
  }

  lemma PutAt(entries: set<Entry>, policy: Policy, actions: seq<Action>, k: nat)
    requires k < |actions| && PutsAt(entries, policy, actions, k)
    ensures var w := Steps(entries, policy, actions[..k]);
            Earlier(w.first, w.policy) && (w.flow.confirmed <==> w.first.mode != Allowlist)
    ensures Steps(entries, policy, actions[..k + 1]).policy.mode == Allowlist
  {
    StepsSnoc(entries, policy, actions, k);
    EveryRunKeepsInv(entries, policy, actions[..k]);
    PutInProgress(entries, Steps(entries, policy, actions[..k]));
  }

  lemma PutInProgress(entries: set<Entry>, w: World)
    requires Inv(entries, w) && w.flow.Putting? && !w.flow.done
    ensures Earlier(w.first, w.policy) && (w.flow.confirmed <==> w.first.mode != Allowlist)
    ensures Step(entries, w, ServerPuts).policy.mode == Allowlist
  {
  }

  // ---------------------------------------------------------------- which click a write is for

  /** The submission in progress, or the dialog that waits, is for the last click, which has not led
      to a write yet. */
  predicate InHand(w: World) {
    Unwritten(w.flow) == 1 || Unconfirmed(w) == 1
  }

  ghost predicate NamesOfClick(w: World, click: nat, names: seq<string>) {
    click < |w.clicked| && Elements(names) == Elements(w.clicked[click])
  }

  ghost predicate ClicksOk(w: World) {
    && (w.flow != Idle <==> w.picker.submitting)
    && (w.flow.FirstRead? ==> w.picker.pending == None)
    && (w.flow != Idle ==> NamesOfClick(w, w.flow.click, w.flow.names))
    && (Unwritten(w.flow) == 1 ==> w.flow.click == |w.clicked| - 1)
    && (Unconfirmed(w) == 1 ==> w.asked == |w.clicked| - 1 && NamesOfClick(w, w.asked, w.picker.pending.value))
    && (forall i :: 0 <= i < |w.writes| ==> NamesOfClick(w, w.writes[i].click, w.writes[i].names))
    && (InHand(w) ==> forall i :: 0 <= i < |w.writes| ==> w.writes[i].click < |w.clicked| - 1)
    && (forall i, j :: 0 <= i < j < |w.writes| ==> w.writes[i].click < w.writes[j].click)
  }

  lemma ServerPutsKeepsClicks(entries: set<Entry>, w: World)
    requires ClicksOk(w)
    ensures ClicksOk(Step(entries, w, ServerPuts))
  {
  }

  lemma SubmitClickKeepsClicks(entries: set<Entry>, w: World)
    requires ClicksOk(w)
    ensures ClicksOk(Step(entries, w, SubmitClick))
  {
  }

  lemma ReplyKeepsClicks(entries: set<Entry>, w: World)
    requires ClicksOk(w)
    ensures ClicksOk(Step(entries, w, ReplyArrives))
  {
  }

  lemma NetworkKeepsClicks(entries: set<Entry>, w: World, a: Action)
    requires ClicksOk(w) && (a.ServerReads? || a.ReplyLost? || a.PutReplyArrives? || a.PutFails?)
    ensures ClicksOk(Step(entries, w, a))
  {
  }

  lemma DialogKeepsClicks(entries: set<Entry>, w: World, a: Action)
    requires ClicksOk(w) && (a.Confirm? || a.Cancel? || a.Close? || a.OtherAdminPuts?)
    ensures ClicksOk(Step(entries, w, a))
  {
  }

  lemma StepKeepsClicks(entries: set<Entry>, w: World, a: Action)
    requires ClicksOk(w)
    ensures ClicksOk(Step(entries, w, a))
  {
    match a
    case ServerPuts => ServerPutsKeepsClicks(entries, w);
    case SubmitClick => SubmitClickKeepsClicks(entries, w);
    case ReplyArrives => ReplyKeepsClicks(entries, w);
    case ServerReads => NetworkKeepsClicks(entries, w, a);
    case ReplyLost => NetworkKeepsClicks(entries, w, a);
    case PutReplyArrives => NetworkKeepsClicks(entries, w, a);
    case PutFails => NetworkKeepsClicks(entries, w, a);
    case Confirm => DialogKeepsClicks(entries, w, a);
    case Cancel => DialogKeepsClicks(entries, w, a);
    case Close => DialogKeepsClicks(entries, w, a);
    case OtherAdminPuts(_, _) => DialogKeepsClicks(entries, w, a);
    case _ =>
  }

  lemma {:induction false} EveryRunKeepsClicks(entries: set<Entry>, policy: Policy, actions: seq<Action>)
    ensures ClicksOk(Steps(entries, policy, actions))
    decreases |actions|
  {
    if actions != [] {
      EveryRunKeepsClicks(entries, policy, actions[..|actions| - 1]);
      StepKeepsClicks(entries, Steps(entries, policy, actions[..|actions| - 1]), actions[|actions| - 1]);
    }
  }

  /** Every write is for a click of its own, later ones for later clicks, and carries the names that
      were staged at that click. */
  lemma AtMostOneWritePerClick(entries: set<Entry>, policy: Policy, actions: seq<Action>)
    ensures var w := Steps(entries, policy, actions);
            && (forall i, j :: 0 <= i < j < |w.writes| ==> w.writes[i].click < w.writes[j].click)
            && (forall i :: 0 <= i < |w.writes| ==>
                  && w.writes[i].click < |w.clicked|
                  && Elements(w.writes[i].names) == Elements(w.clicked[w.writes[i].click]))
            && |w.writes| <= |w.clicked|
  {
    EveryRunKeepsClicks(entries, policy, actions);
    EveryRunKeepsInv(entries, policy, actions);
  }

  // ---------------------------------------------------------------- what is staged

  /** Ticking the entry flips this name: the catalog's, or else the one it was verified under. */
  predicate Flips(p: Picker, e: Entry, n: string) {
    if e.routableAs.Some? then e.routableAs.value == n
    else e.nativeId in p.resolvedNames && p.resolvedNames[e.nativeId] == n
  }

  predicate TogglesName(entries: set<Entry>, w: World, a: Action, n: string) {
    a.Toggle? && a.entry in entries && ShowsChecklist(w.picker) && Flips(w.picker, a.entry, n)
  }

  predicate VerifiesName(w: World, a: Action, n: string) {
    a == VerificationAnswered(Some(n)) && !w.picker.closed && w.picker.registering == None && w.picker.verifying.Some?
  }

  /** A name becomes staged by being ticked or verified, and stops being so by being ticked again;
      nothing else touches it. */
  lemma StagedAfter(entries: set<Entry>, w: World, a: Action, n: string)
    ensures n in Step(entries, w, a).picker.staged <==>
              if TogglesName(entries, w, a, n) then n !in w.picker.staged
              else n in w.picker.staged || VerifiesName(w, a, n)
  {
    if a.VerificationAnswered? && a.name.Some? {
      var r := Added(w.picker.staged, a.name.value);
      assert n in r <==> n in Elements(r);
      assert n in w.picker.staged <==> n in Elements(w.picker.staged);
    }
  }

  /** A verification that succeeds stages its name and no other, and ticking that entry flips this
      name from then on; one that fails leaves both as they were. */
  lemma VerificationEnds(entries: set<Entry>, w: World, name: Option<string>)
    requires !w.picker.closed && w.picker.registering == None && w.picker.verifying.Some?
    ensures var e, after := w.picker.verifying.value, Step(entries, w, VerificationAnswered(name));
            && after.picker.verifying == None
            && (name == None ==> after.picker == w.picker.(verifying := None) && after.verified == w.verified)
            && (name.Some? ==>
                  && Elements(after.picker.staged) == Elements(w.picker.staged) + {name.value}
                  && after.picker.resolvedNames == w.picker.resolvedNames[e.nativeId := name.value]
                  && after.verified == w.verified + {name.value}
                  && (e.routableAs == None ==> Flips(after.picker, e, name.value)))
  {
  }

  lemma StagedAt(entries: set<Entry>, policy: Policy, actions: seq<Action>, k: nat, n: string)
    requires k < |actions|
    ensures var w := Steps(entries, policy, actions[..k]);
            n in Steps(entries, policy, actions[..k + 1]).picker.staged <==>
              if TogglesName(entries, w, actions[k], n) then n !in w.picker.staged
              else n in w.picker.staged || VerifiesName(w, actions[k], n)
  {
    StepsSnoc(entries, policy, actions, k);
    StagedAfter(entries, Steps(entries, policy, actions[..k]), actions[k], n);
  }

  /** From ticking an entry that no name routes to, over its registration, to its live verification:
      the name that was verified is staged, and a second tick takes it out again. */
  lemma RegisteringStages(entries: set<Entry>, w: World, e: Entry, n: string)
    requires ShowsChecklist(w.picker) && e in entries && e.routableAs == None && e.nativeId !in w.picker.resolvedNames
    ensures var w1 := Step(entries, w, Toggle(e)); var w2 := Step(entries, w1, RegistrationSaved);
            var w3 := Step(entries, w2, VerificationAnswered(Some(n))); var w4 := Step(entries, w3, Toggle(e));
            && w1.picker.registering == Some(e) && w2.picker.verifying == Some(e) && w2.picker.staged == w.picker.staged
            && Elements(w3.picker.staged) == Elements(w.picker.staged) + {n} && ShowsChecklist(w3.picker)
            && Elements(w4.picker.staged) == Elements(w.picker.staged) - {n}
  {
    var w1 := Step(entries, w, Toggle(e));
    var w2 := Step(entries, w1, RegistrationSaved);
    VerificationEnds(entries, w2, Some(n));
    var w3 := Step(entries, w2, VerificationAnswered(Some(n)));
    assert n in Elements(w3.picker.staged);
    ToggleFlipsOne(w3.picker, e);
  }

  lemma {:induction false} StaysStaged(entries: set<Entry>, policy: Policy, actions: seq<Action>, j: nat, k: nat, n: string)
    requires j <= k <= |actions| && n in Steps(entries, policy, actions[..j]).picker.staged
    requires forall i :: j <= i < k ==> !TogglesName(entries, Steps(entries, policy, actions[..i]), actions[i], n)
    ensures n in Steps(entries, policy, actions[..k]).picker.staged
    decreases k
  {
    if j < k {
      StaysStaged(entries, policy, actions, j, k - 1, n);
      StagedAt(entries, policy, actions, k - 1, n);
    }
  }

  /** The k-th action is a submit click that takes effect. */
  predicate Submits(entries: set<Entry>, policy: Policy, actions: seq<Action>, k: nat)
    requires k < |actions|
  {
    |Steps(entries, policy, actions[..k]).clicked| < |Steps(entries, policy, actions[..k + 1]).clicked|
  }

  lemma ClickTakes(entries: set<Entry>, w: World, a: Action)
    requires |w.clicked| < |Step(entries, w, a).clicked|
    ensures a.SubmitClick? && Step(entries, w, a).clicked == w.clicked + [w.picker.staged]
    ensures Step(entries, w, a).flow.FirstRead? && Step(entries, w, a).flow.names == w.picker.staged
  {
  }

  /** A model that was verified, and not ticked off since, is among the names of the next click. */
  lemma VerifiedIsSubmitted(entries: set<Entry>, policy: Policy, actions: seq<Action>, j: nat, k: nat, n: string)
    requires j < k < |actions| && VerifiesName(Steps(entries, policy, actions[..j]), actions[j], n)
    requires forall i :: j < i < k ==> !TogglesName(entries, Steps(entries, policy, actions[..i]), actions[i], n)
    requires Submits(entries, policy, actions, k)
    ensures var after := Steps(entries, policy, actions[..k + 1]);
            && n in after.clicked[|after.clicked| - 1]
            && after.flow.FirstRead? && after.flow.names == after.clicked[|after.clicked| - 1]
  {
    StagedAt(entries, policy, actions, j, n);
    StaysStaged(entries, policy, actions, j + 1, k, n);
    StepsSnoc(entries, policy, actions, k);
    ClickTakes(entries, Steps(entries, policy, actions[..k]), actions[k]);
  }

  // ---------------------------------------------------------------- how a submission ends

  /** A write that went through closes the picker; one that failed shows its error on the checklist,
      with everything still staged. */
  lemma WriteEnds(entries: set<Entry>, w: World)
    requires w.flow.Putting?
    ensures var ok, failed := Step(entries, w, PutReplyArrives), Step(entries, w, PutFails);
            && (w.flow.done ==> ok.picker.closed && !ok.picker.submitting && ok.flow == Idle)
            && failed.picker.error && !failed.picker.submitting && failed.picker.pending == None && failed.flow == Idle
            && failed.picker.closed == w.picker.closed && failed.picker.staged == w.picker.staged
            && failed.policy == w.policy && failed.writes == w.writes
  {
  }

  /** A failed read ends the submission with an error. The first one asks for a confirmation exactly
      when the policy is not an allowlist; otherwise the second one is under way at once. */
  lemma ReadEnds(entries: set<Entry>, w: World)
    requires w.flow.FirstRead? || w.flow.SecondRead?
    ensures var arrived, lost := Step(entries, w, ReplyArrives), Step(entries, w, ReplyLost);
            && lost.picker.error && !lost.picker.submitting && lost.flow == Idle && lost.picker.staged == w.picker.staged
            && (w.flow.SecondRead? ==> lost.picker.pending == None)
            && (w.flow.FirstRead? && w.flow.served.Some? ==>
                  && arrived.asked == w.flow.click && arrived.first == w.flow.served.value
                  && if w.flow.served.value.mode == Allowlist
                     then arrived.flow == SecondRead(w.flow.click, w.flow.names, false, None) && arrived.picker.submitting
                     else arrived.flow == Idle && !arrived.picker.submitting && arrived.picker.pending.Some?
                          && Elements(arrived.picker.pending.value) == Elements(w.flow.names))
  {
  }

  // ---------------------------------------------------------------- which additions a write loses

  /** The second read has been served, and the write that follows from it has not been carried out. */
  predicate Holding(f: Flow) {
    (f.SecondRead? && f.served.Some?) || (f.Putting? && !f.done)
  }

  function Held(f: Flow): Policy
    requires Holding(f)
  {
    if f.SecondRead? then f.served.value else f.latest
  }

  /** Where the read was served that the submission before the k-th action holds. */
  function ReadIndex(entries: set<Entry>, policy: Policy, actions: seq<Action>, k: nat): nat
    requires k <= |actions|
  {
    if k == 0 then 0
    else if Holding(Steps(entries, policy, actions[..k - 1]).flow) then ReadIndex(entries, policy, actions, k - 1)
    else k - 1
  }

  lemma HoldsAfter(entries: set<Entry>, w: World, a: Action)
    requires Holding(Step(entries, w, a).flow)
    ensures var f := Step(entries, w, a).flow;
            if Holding(w.flow) then Held(f) == Held(w.flow) && !(a.ServerPuts? && w.flow.Putting? && !w.flow.done)
            else a.ServerReads? && Held(f) == w.policy
  {
  }

  lemma HoldsAt(entries: set<Entry>, policy: Policy, actions: seq<Action>, k: nat)
    requires k < |actions| && Holding(Steps(entries, policy, actions[..k + 1]).flow)
    ensures var before, f := Steps(entries, policy, actions[..k]), Steps(entries, policy, actions[..k + 1]).flow;
            && !PutsAt(entries, policy, actions, k)
            && if Holding(before.flow) then Held(f) == Held(before.flow)
               else actions[k].ServerReads? && Held(f) == before.policy
  {
    StepsSnoc(entries, policy, actions, k);
    HoldsAfter(entries, Steps(entries, policy, actions[..k]), actions[k]);
  }

  /** What is held was in force where it was served, and this picker has not written since. */
  lemma {:induction false} HeldIsAsServed(entries: set<Entry>, policy: Policy, actions: seq<Action>, k: nat)
    requires k <= |actions| && Holding(Steps(entries, policy, actions[..k]).flow)
    ensures var r := ReadIndex(entries, policy, actions, k);
            && r < k && actions[r].ServerReads?
            && Held(Steps(entries, policy, actions[..k]).flow) == Steps(entries, policy, actions[..r]).policy
            && forall j :: r <= j < k ==> !PutsAt(entries, policy, actions, j)
  {
    assert actions[..0] == [];
    HoldsAt(entries, policy, actions, k - 1);
    if Holding(Steps(entries, policy, actions[..k - 1]).flow) {
      HeldIsAsServed(entries, policy, actions, k - 1);
    }
  }

  lemma {:induction false} UnwrittenStays(entries: set<Entry>, policy: Policy, actions: seq<Action>, r: nat, k: nat)
    requires r <= k <= |actions| && forall j :: r <= j < k ==> !WritesAt(entries, policy, actions, j)
    ensures Steps(entries, policy, actions[..k]).policy == Steps(entries, policy, actions[..r]).policy
    decreases k
  {
    if r < k {
      UnwrittenStays(entries, policy, actions, r, k - 1);
      assert !WritesAt(entries, policy, actions, k - 1);
    }
  }

  lemma WritesAreSomeones(entries: set<Entry>, policy: Policy, actions: seq<Action>, j: nat)
    requires j < |actions| && WritesAt(entries, policy, actions, j)
    ensures actions[j].OtherAdminPuts? || PutsAt(entries, policy, actions, j)
  {
    StepsSnoc(entries, policy, actions, j);
  }

  lemma WrittenIsMerged(entries: set<Entry>, policy: Policy, actions: seq<Action>, k: nat)
    requires k < |actions| && PutsAt(entries, policy, actions, k)
    ensures var f := Steps(entries, policy, actions[..k]).flow;
            Steps(entries, policy, actions[..k + 1]).policy.models == Merged(f.latest, f.names)
  {
    StepsSnoc(entries, policy, actions, k);
    EveryRunKeepsInv(entries, policy, actions[..k]);
    PutIsMerged(entries, Steps(entries, policy, actions[..k]));
  }

  lemma PutIsMerged(entries: set<Entry>, w: World)
    requires Inv(entries, w) && w.flow.Putting? && !w.flow.done
    ensures Step(entries, w, ServerPuts).policy.models == Merged(w.flow.latest, w.flow.names)
  {
  }

  lemma MergedHas(latest: Policy, names: seq<string>, model: string)
    ensures model in Merged(latest, names) <==> model in names || (latest.mode == Allowlist && model in latest.models)
  {
    assert model in Merged(latest, names) <==> model in Elements(Merged(latest, names));
    assert model in latest.models + names <==> model in Elements(latest.models + names);
    assert model in names <==> model in Elements(names);
  }

  /** Exactly which models of the allowlist in force a write loses: those that were neither staged nor
      in an allowlist where the second read was served. Another admin then wrote after that. */
  lemma LostAdditionsIff(entries: set<Entry>, policy: Policy, actions: seq<Action>, k: nat, model: string)
    requires k < |actions| && PutsAt(entries, policy, actions, k)
    requires var now := Steps(entries, policy, actions[..k]).policy; now.mode == Allowlist && model in now.models
    ensures var r := ReadIndex(entries, policy, actions, k);
            && r < k && actions[r].ServerReads?
            && var served := Steps(entries, policy, actions[..r]).policy;
            && (model !in Steps(entries, policy, actions[..k + 1]).policy.models <==>
                  model !in Steps(entries, policy, actions[..k]).flow.names &&
                  !(served.mode == Allowlist && model in served.models))
            && (model !in Steps(entries, policy, actions[..k + 1]).policy.models ==>
                  exists j :: r <= j < k && actions[j].OtherAdminPuts? && WritesAt(entries, policy, actions, j))
  {
    var r := ReadIndex(entries, policy, actions, k);
    HeldIsAsServed(entries, policy, actions, k);
    WrittenIsMerged(entries, policy, actions, k);
    var f := Steps(entries, policy, actions[..k]).flow;
    MergedHas(f.latest, f.names, model);
    if forall j :: r <= j < k ==> !WritesAt(entries, policy, actions, j) {
      UnwrittenStays(entries, policy, actions, r, k);
    } else {
      var j :| r <= j < k && WritesAt(entries, policy, actions, j);
      WritesAreSomeones(entries, policy, actions, j);
    }
  }

  // ---------------------------------------------------------------- runs that lose something

  /** Ticks the only entry and submits, up to the second read being served. */
  function Submitted(policy: Policy, between: seq<Action>): World {
    var entries := {Entry("n", Some("a"))};
    var w0 := Step(entries, Start(policy), Toggle(Entry("n", Some("a"))));
    var w1 := Step(entries, Step(entries, Step(entries, w0, SubmitClick), ServerReads), ReplyArrives);
    var w2 := if between == [] then w1 else Step(entries, w1, between[0]);
    Step(entries, w2, ServerReads)
  }

  lemma SubmitsAtOnce(models: seq<string>)
    ensures var w := Submitted(Policy(Allowlist, models, 0), []);
            && w.flow == SecondRead(0, ["a"], false, Some(Policy(Allowlist, models, 0)))
            && w.policy == Policy(Allowlist, models, 0) && w.first == w.policy && w.writes == []
  {
  }

  lemma OneIsMissing()
    ensures "y" !in Distinct(["x"] + ["a"])
  {
    assert Elements(Distinct(["x"] + ["a"])) == Elements(["x"] + ["a"]);
    assert "y" !in Elements(["x"] + ["a"]);
  }

  lemma MergesAndWrites(entries: set<Entry>, w: World, names: seq<string>, latest: Policy)
    requires w.flow == SecondRead(0, names, false, Some(latest))
    ensures var after := Step(entries, Step(entries, w, ReplyArrives), ServerPuts);
            && after.policy == Written(w.policy, Allowlist, Merged(latest, names))
            && after.writes == w.writes + [Write(0, Merged(latest, names), names, w.first, latest, false, w.policy)]
  {
  }

  /** Another admin's addition between the second read and the write is lost. */
  lemma AdditionInBetweenIsLost()
    ensures var entries := {Entry("n", Some("a"))};
            var w := Step(entries, Submitted(Policy(Allowlist, ["x"], 0), []), OtherAdminPuts(Allowlist, ["x", "y"]));
            var after := Step(entries, Step(entries, w, ReplyArrives), ServerPuts);
            "y" in w.policy.models && after.policy.mode == Allowlist && "y" !in after.policy.models
  {
    SubmitsAtOnce(["x"]);
    OneIsMissing();
    AddsInBetween({Entry("n", Some("a"))}, Submitted(Policy(Allowlist, ["x"], 0), []), Policy(Allowlist, ["x"], 0), "y");
  }

  lemma AddsInBetween(entries: set<Entry>, before: World, latest: Policy, other: string)
    requires before.flow == SecondRead(0, ["a"], false, Some(latest)) && latest.mode == Allowlist && latest.models == ["x"]
    requires other !in Distinct(["x"] + ["a"])
    ensures var w := Step(entries, before, OtherAdminPuts(Allowlist, ["x", other]));
            var after := Step(entries, Step(entries, w, ReplyArrives), ServerPuts);
            other in w.policy.models && after.policy.mode == Allowlist && other !in after.policy.models
  {
    var w := Step(entries, before, OtherAdminPuts(Allowlist, ["x", other]));
    MergesAndWrites(entries, w, ["a"], latest);
    assert w.policy.models[1] == other;
  }

  /** An admin who leaves allowlist mode between the two reads has it imposed again, on this picker's
      models alone and with no dialog. */
  lemma SwitchWithoutDialog()
    ensures var entries := {Entry("n", Some("a"))};
            var w := Submitted(Policy(Allowlist, ["x"], 0), [OtherAdminPuts(Denylist, [])]);
            var after := Step(entries, Step(entries, w, ReplyArrives), ServerPuts);
            && w.policy.mode == Denylist && after.policy == Policy(Allowlist, ["a"], 2)
            && |after.writes| == 1 && !after.writes[0].confirmed
  {
    var w := Submitted(Policy(Allowlist, ["x"], 0), [OtherAdminPuts(Denylist, [])]);
    SubmitsAcrossAWrite(["x"]);
    MergesAndWrites({Entry("n", Some("a"))}, w, ["a"], Policy(Denylist, [], 1));
    DistinctOne("a");
  }

  /** So does one who leaves it after the second read. */
  lemma SwitchAfterSecondRead()
    ensures var entries := {Entry("n", Some("a"))};
            var w := Step(entries, Submitted(Policy(Allowlist, ["x"], 0), []), OtherAdminPuts(Denylist, []));
            var after := Step(entries, Step(entries, w, ReplyArrives), ServerPuts);
            && w.policy.mode == Denylist && after.policy.mode == Allowlist
            && |after.writes| == 1 && !after.writes[0].confirmed
            && after.writes[0].first == after.writes[0].latest && after.writes[0].latest.mode == Allowlist
  {
    var before := Submitted(Policy(Allowlist, ["x"], 0), []);
    SubmitsAtOnce(["x"]);
    MergesAndWrites({Entry("n", Some("a"))}, Step({Entry("n", Some("a"))}, before, OtherAdminPuts(Denylist, [])),
                    ["a"], Policy(Allowlist, ["x"], 0));
  }

  lemma SubmitsAcrossAWrite(models: seq<string>)
    ensures var w := Submitted(Policy(Allowlist, models, 0), [OtherAdminPuts(Denylist, [])]);
            && w.flow == SecondRead(0, ["a"], false, Some(Policy(Denylist, [], 1)))
            && w.policy == Policy(Denylist, [], 1) && w.writes == []
  {
  }

  lemma DistinctOne(x: string)
    ensures Distinct([x]) == [x]
  {
    assert [x][..0] == [] && Distinct([x][..0]) == [];
  }
}
