/** The data-fetching hook (frontend/src/lib/useApiQuery.ts): any number of requests in flight, whose
    callbacks may come in any order, with other runs between a request's `then` and its `finally`. */
module ApiQuery {
  import opened Options

  /** The hook's state and its request counter. */
  datatype View<+T> = View(data: Option<T>, loading: bool, error: Option<string>, requestSeq: nat)

  function Started<T>(v: View<T>): View<T> {
    v.(loading := true, error := None, requestSeq := v.requestSeq + 1)
  }

  function Resolved<T>(v: View<T>, id: nat, result: T): View<T> {
    if v.requestSeq != id then v else v.(data := Some(result))
  }

  function Rejected<T>(v: View<T>, id: nat, message: string): View<T> {
    if v.requestSeq != id then v else v.(error := Some(message))
  }

  function Finished<T>(v: View<T>, id: nat): View<T> {
    if v.requestSeq != id then v else v.(loading := false)
  }

  function Invalidated<T>(v: View<T>): View<T> {
    v.(requestSeq := v.requestSeq + 1)
  }

  class Query<T> {
    var data: Option<T>
    var loading: bool
    var error: Option<string>
    var requestSeq: nat

    function Now(): View<T>
      reads this
    {
      View(data, loading, error, requestSeq)
    }

    constructor ()
      ensures Now() == View(None, true, None, 0)
    {
      data, loading, error, requestSeq := None, true, None, 0;
    }

    /** Starts a request; its callbacks carry the id. */
    method Run() returns (id: nat)
      modifies this
      ensures Now() == Started(old(Now())) && id == requestSeq
    {
      requestSeq := requestSeq + 1;
      id := requestSeq;
      loading := true;
      error := None;
    }

    method OnThen(id: nat, result: T)
      modifies this
      ensures Now() == Resolved(old(Now()), id, result)
    {
      if requestSeq != id {
        return;
      }
      data := Some(result);
    }

    method OnCatch(id: nat, message: string)
      modifies this
      ensures Now() == Rejected(old(Now()), id, message)
    {
      if requestSeq != id {
        return;
      }
      error := Some(message);
    }

    method OnFinally(id: nat)
      modifies this
      ensures Now() == Finished(old(Now()), id)
    {
      if requestSeq != id {
        return;
      }
      loading := false;
    }

    /** Unmount, or a change of dependencies. */
    method Cleanup()
      modifies this
      ensures Now() == Invalidated(old(Now()))
    {
      requestSeq := requestSeq + 1;
    }
  }

  // ---------------------------------------------------------------- the promises around the hook

  datatype Outcome<+T> = Value(result: T) | Failure(message: string)

  /** A request whose fetcher threw before returning a promise has no callbacks. */
  datatype Phase<+T> = InFlight | Answered(outcome: Outcome<T>) | Done(outcome: Outcome<T>) | Threw

  datatype State<+T> = State(view: View<T>, requests: map<nat, Phase<T>>)

  datatype Action<+T> =
    | Run               // the effect, or `refetch`
    | RunThrows         // the same, with a fetcher that throws
    | Cleanup
    | Then(id: nat, result: T)
    | Catch(id: nat, message: string)
    | Finally(id: nat)

  predicate InPhase<T>(s: State<T>, id: nat, inFlight: bool) {
    id in s.requests && (if inFlight then s.requests[id].InFlight? else s.requests[id].Answered?)
  }

  /** A callback that is not due leaves everything as it is. */
  function Step<T>(s: State<T>, a: Action<T>): State<T> {
    match a
    case Run => State(Started(s.view), s.requests[s.view.requestSeq + 1 := InFlight])
    case RunThrows => State(Started(s.view), s.requests[s.view.requestSeq + 1 := Threw])
    case Cleanup => s.(view := Invalidated(s.view))
    case Then(id, result) =>
      if !InPhase(s, id, true) then s
      else State(Resolved(s.view, id, result), s.requests[id := Answered(Value(result))])
    case Catch(id, message) =>
      if !InPhase(s, id, true) then s
      else State(Rejected(s.view, id, message), s.requests[id := Answered(Failure(message))])
    case Finally(id) =>
      if !InPhase(s, id, false) then s
      else State(Finished(s.view, id), s.requests[id := Done(s.requests[id].outcome)])
  }

  function Steps<T>(actions: seq<Action<T>>): State<T>
    decreases |actions|
  {
    if actions == [] then State(View(None, true, None, 0), map[])
    else Step(Steps(actions[..|actions| - 1]), actions[|actions| - 1])
  }

  // ---------------------------------------------------------------- reading a run off its actions

  /** How many ids have been handed out or skipped: one per run and one per cleanup. */
  function Issued<T>(actions: seq<Action<T>>): nat {
    if actions == [] then 0
    else Issued(actions[..|actions| - 1]) +
         var a := actions[|actions| - 1]; if a.Run? || a.RunThrows? || a.Cleanup? then 1 else 0
  }

  /** The last result that arrived for the request that was then the newest. */
  function LastApplied<T>(actions: seq<Action<T>>): Option<T> {
    if actions == [] then None
    else
      var before, a := actions[..|actions| - 1], actions[|actions| - 1];
      if a.Then? && InPhase(Steps(before), a.id, true) && a.id == Issued(before) then Some(a.result)
      else LastApplied(before)
  }

  predicate IsCallback<T>(a: Action<T>) {
    a.Then? || a.Catch? || a.Finally?
  }

  /** The k-th action is a callback whose turn has come. */
  predicate Due<T>(actions: seq<Action<T>>, k: nat)
    requires k < |actions|
  {
    IsCallback(actions[k]) && InPhase(Steps(actions[..k]), actions[k].id, !actions[k].Finally?)
  }

  predicate PassesGuard<T>(actions: seq<Action<T>>, k: nat)
    requires k < |actions| && IsCallback(actions[k])
  {
    Steps(actions[..k]).view.requestSeq == actions[k].id
  }

  /** The k-th action is a callback that comes in its turn and does what it does for the newest
      request, be it that what it stores was there before. */
  predicate Applies<T>(actions: seq<Action<T>>, k: nat)
    requires k < |actions|
  {
    Due(actions, k) && PassesGuard(actions, k)
  }

  lemma StepsSnoc<T>(actions: seq<Action<T>>, k: nat)
    requires k < |actions|
    ensures Steps(actions[..k + 1]) == Step(Steps(actions[..k]), actions[k])
    ensures Issued(actions[..k + 1]) ==
              Issued(actions[..k]) + if actions[k].Run? || actions[k].RunThrows? || actions[k].Cleanup? then 1 else 0
  {
    assert actions[..k + 1][..k] == actions[..k];
  }

  lemma {:induction false} SeqIsIssued<T>(actions: seq<Action<T>>, k: nat)
    requires k <= |actions|
    ensures Steps(actions[..k]).view.requestSeq == Issued(actions[..k])
  {
    if k > 0 {
      SeqIsIssued(actions, k - 1);
      StepsSnoc(actions, k - 1);
    }
  }

  lemma {:induction false} IssuedGrows<T>(actions: seq<Action<T>>, i: nat, j: nat)
    requires i <= j <= |actions|
    ensures Issued(actions[..i]) <= Issued(actions[..j])
    decreases j
  {
    if i < j {
      IssuedGrows(actions, i, j - 1);
      StepsSnoc(actions, j - 1);
    }
  }

  /** A callback that changes what is shown applies, and one that applies is the newest request's. */
  lemma OnlyNewestApplies<T>(actions: seq<Action<T>>, k: nat)
    requires k < |actions| && IsCallback(actions[k])
    ensures Steps(actions[..k + 1]).view != Steps(actions[..k]).view ==> Applies(actions, k)
    ensures Applies(actions, k) ==> actions[k].id == Issued(actions[..k])
  {
    StepsSnoc(actions, k);
    SeqIsIssued(actions, k);
  }

  /** Results are applied in the order in which their requests were made, whatever the order of the
      answers. */
  lemma AppliedNeverGoesBack<T>(actions: seq<Action<T>>, i: nat, j: nat)
    requires i < j < |actions| && Applies(actions, i) && Applies(actions, j)
    ensures actions[i].id <= actions[j].id
  {
    OnlyNewestApplies(actions, i);
    OnlyNewestApplies(actions, j);
    IssuedGrows(actions, i, j);
  }

  lemma {:induction false} IdsAreIssued<T>(actions: seq<Action<T>>, id: nat)
    requires id in Steps(actions).requests
    ensures 0 < id <= Issued(actions)
    decreases |actions|
  {
    var k := |actions| - 1;
    assert actions[..k + 1] == actions;
    StepsSnoc(actions, k);
    SeqIsIssued(actions, k);
    if id in Steps(actions[..k]).requests {
      IdsAreIssued(actions[..k], id);
    }
  }

  predicate StartsRequest<T>(a: Action<T>) {
    a.Run? || a.RunThrows?
  }

  lemma {:induction false} NoNewRequestWithoutRuns<T>(actions: seq<Action<T>>, i: nat, j: nat, id: nat)
    requires i <= j <= |actions| && forall k :: i <= k < j ==> !StartsRequest(actions[k])
    requires id in Steps(actions[..j]).requests
    ensures id in Steps(actions[..i]).requests
    decreases j
  {
    if i < j {
      StepsSnoc(actions, j - 1);
      NoNewRequestWithoutRuns(actions, i, j - 1, id);
    }
  }

  /** After a cleanup a callback applies only if another request was started in between. */
  lemma NothingAppliesAfterCleanup<T>(actions: seq<Action<T>>, c: nat, k: nat)
    requires c < k < |actions| && actions[c].Cleanup? && Applies(actions, k)
    ensures exists i :: c < i < k && StartsRequest(actions[i])
  {
    if forall i :: c < i < k ==> !StartsRequest(actions[i]) {
      var id := actions[k].id;
      OnlyNewestApplies(actions, k);
      StepsSnoc(actions, k);
      NoNewRequestWithoutRuns(actions, c + 1, k, id);
      StepsSnoc(actions, c);
      IdsAreIssued(actions[..c], id);
      IssuedGrows(actions, c + 1, k);
    }
  }

  predicate Issues<T>(a: Action<T>) {
    StartsRequest(a) || a.Cleanup?
  }

  /** The i-th action starts the request with this id. */
  predicate StartedAt<T>(actions: seq<Action<T>>, i: nat, id: nat)
    requires i < |actions|
  {
    actions[i].Run? && id == Issued(actions[..i]) + 1
  }

  lemma {:induction false} RequestsWereStarted<T>(actions: seq<Action<T>>, k: nat, id: nat) returns (i: nat)
    requires k <= |actions| && id in Steps(actions[..k]).requests && !Steps(actions[..k]).requests[id].Threw?
    ensures i < k && StartedAt(actions, i, id)
  {
    assert actions[..0] == [];
    StepsSnoc(actions, k - 1);
    SeqIsIssued(actions, k - 1);
    var before := Steps(actions[..k - 1]);
    if id in before.requests && !before.requests[id].Threw? {
      i := RequestsWereStarted(actions, k - 1, id);
    } else {
      i := k - 1;
    }
  }

  lemma {:induction false} NothingIssued<T>(actions: seq<Action<T>>, i: nat, k: nat)
    requires i <= k <= |actions| && forall j :: i <= j < k ==> !Issues(actions[j])
    ensures Issued(actions[..k]) == Issued(actions[..i])
    decreases k
  {
    if i < k {
      NothingIssued(actions, i, k - 1);
      StepsSnoc(actions, k - 1);
    }
  }

  /** The request of the k-th action was started after action `c`, and no run or cleanup came since. */
  ghost predicate StillNewest<T>(actions: seq<Action<T>>, c: int, k: nat)
    requires k < |actions| && IsCallback(actions[k])
  {
    exists i :: 0 <= i < k && c < i && StartedAt(actions, i, actions[k].id)
      && forall j :: i < j < k ==> !Issues(actions[j])
  }

  lemma StillNewestPasses<T>(actions: seq<Action<T>>, k: nat)
    requires k < |actions| && IsCallback(actions[k]) && StillNewest(actions, -1, k)
    ensures PassesGuard(actions, k)
  {
    var i :| 0 <= i < k && -1 < i && StartedAt(actions, i, actions[k].id)
      && forall j :: i < j < k ==> !Issues(actions[j]);
    StepsSnoc(actions, i);
    NothingIssued(actions, i + 1, k);
    SeqIsIssued(actions, k);
  }

  lemma PassingIsStillNewest<T>(actions: seq<Action<T>>, k: nat)
    requires k < |actions| && Due(actions, k) && PassesGuard(actions, k)
    ensures StillNewest(actions, -1, k)
  {
    var i := RequestsWereStarted(actions, k, actions[k].id);
    SeqIsIssued(actions, k);
    StepsSnoc(actions, i);
    forall j | i < j < k ensures !Issues(actions[j]) {
      StepsSnoc(actions, j);
      IssuedGrows(actions, i + 1, j);
      IssuedGrows(actions, j + 1, k);
    }
  }

  /** After a cleanup, a due callback passes its guard exactly when its request was started after that
      cleanup and no run or cleanup has come since. */
  lemma PassesAfterCleanupIff<T>(actions: seq<Action<T>>, c: nat, k: nat)
    requires c < k < |actions| && actions[c].Cleanup? && Due(actions, k)
    ensures PassesGuard(actions, k) <==> StillNewest(actions, c, k)
  {
    if PassesGuard(actions, k) {
      PassingIsStillNewest(actions, k);
    }
    if StillNewest(actions, c, k) {
      StillNewestPasses(actions, k);
    }
  }

  /** `refetch` is the exception: called after the unmount, its answer is still applied. */
  lemma RefetchAfterUnmountApplies()
    ensures Applies([Run, Cleanup, Run, Then(3, 7)], 3)
  {
    var a: seq<Action<int>> := [Run, Cleanup, Run, Then(3, 7)];
    StepsSnoc(a, 0);
    StepsSnoc(a, 1);
    StepsSnoc(a, 2);
    StepsSnoc(a, 3);
    assert Steps(a[..3]).view == View(None, true, None, 3);
  }

  // ---------------------------------------------------------------- what is shown

  /** What the hook shows, given how far its newest request has come. */
  ghost predicate ViewOk<T>(s: State<T>, last: Option<T>) {
    && s.view.data == last
    && (s.view.requestSeq in s.requests ==>
          match s.requests[s.view.requestSeq]
          case InFlight => s.view.loading && s.view.error == None
          case Threw => s.view.loading && s.view.error == None
          case Answered(Value(v)) => s.view.loading && s.view.error == None && last == Some(v)
          case Answered(Failure(m)) => s.view.loading && s.view.error == Some(m)
          case Done(Value(v)) => !s.view.loading && s.view.error == None && last == Some(v)
          case Done(Failure(m)) => !s.view.loading && s.view.error == Some(m))
  }

  lemma {:induction false} EveryRunKeepsViewOk<T>(actions: seq<Action<T>>)
    ensures ViewOk(Steps(actions), LastApplied(actions))
    decreases |actions|
  {
    if actions != [] {
      var before, a := actions[..|actions| - 1], actions[|actions| - 1];
      EveryRunKeepsViewOk(before);
      assert before[..|before|] == before;
      SeqIsIssued(before, |before|);
      if Issued(before) + 1 in Steps(before).requests {
        IdsAreIssued(before, Issued(before) + 1);
      }
      assert Issued(before) + 1 !in Steps(before).requests;
    }
  }

  predicate Settled<T>(s: State<T>) {
    forall id :: id in s.requests ==> s.requests[id].Done? || s.requests[id].Threw?
  }

  /** The newest id belongs to a request: nothing has invalidated it since. */
  predicate Live<T>(s: State<T>) {
    s.view.requestSeq in s.requests
  }

  /** Once everything has settled, whatever the order, the hook shows the newest request: its result
      with no error, or its error beside the last result applied. It is still loading exactly when
      that request's fetcher threw. */
  lemma SettledShowsNewest<T>(actions: seq<Action<T>>)
    requires Settled(Steps(actions)) && Live(Steps(actions))
    ensures var s := Steps(actions); var newest := s.requests[s.view.requestSeq];
            && Issued(actions) == s.view.requestSeq
            && s.view.data == LastApplied(actions)
            && (s.view.loading <==> newest.Threw?)
            && (newest.Done? && newest.outcome.Value? ==>
                  s.view.data == Some(newest.outcome.result) && s.view.error == None)
            && (newest.Done? && newest.outcome.Failure? ==> s.view.error == Some(newest.outcome.message))
  {
    EveryRunKeepsViewOk(actions);
    assert actions[..|actions|] == actions;
    SeqIsIssued(actions, |actions|);
  }

  /** A `refetch` whose fetcher throws leaves the hook loading, with nothing in flight. */
  lemma ThrowingRefetchKeepsLoading()
    ensures var s := Steps([Run, Then(1, 7), Finally(1), RunThrows]);
            Settled(s) && Live(s) && s.view.loading && s.view.data == Some(7)
  {
    var a: seq<Action<int>> := [Run, Then(1, 7), Finally(1), RunThrows];
    assert a[..4] == a && a[..0] == [];
    StepsSnoc(a, 0);
    StepsSnoc(a, 1);
    StepsSnoc(a, 2);
    StepsSnoc(a, 3);
    assert Steps(a[..3]).requests == map[1 := Done(Value(7))];
  }
}
