/** The controller over a whole process lifetime: the inbound triggers as one
    serialized request sequence, the invariant every transition keeps, and the
    properties that relate several transitions.
 */
module Lifecycle {
  import opened Types
  import opened Controller

  /** One trigger: a start request from the renderer, a retry from the main
      process, or a notification from the listen session (with whether the
      window still exists). Transport answers travel with the request. */
  datatype Request =
    | StartRequest(senderId: string, reg: RegisterResult, lis: ListenResult)
    | RetryRequest(reg: RegisterResult, lis: ListenResult)
    | Inbound(note: Notification, alive: bool)

  /** A fresh process over whatever an earlier process persisted. */
  function Initial(store: Store): State
  {
    State(Service(false, false, None), store)
  }

  /** What the service keeps true: the two store keys are written together,
      the senderId is cached exactly once the service has started, and
      `registered` implies stored credentials. */
  predicate Consistent(s: State)
  {
    && (s.store.credentials.Some? <==> s.store.senderId.Some?)
    && (s.service.started <==> s.service.senderId.Some?)
    && (s.service.registered ==> s.service.started && s.store.credentials.Some?)
  }

  function Dispatch(s: State, req: Request): (r: Step)
    ensures req.Inbound? ==> r.state.store.persistentIds == s.store.persistentIds + [req.note.persistentId]
    ensures !req.Inbound? ==> r.state.store.persistentIds == s.store.persistentIds
    ensures s.service.started ==> r.state.service.started
    ensures s.service.registered ==> r.state.service.registered
    ensures s.store.credentials.Some? ==> r.state.store.credentials.Some?
  {
    match req
    case StartRequest(senderId, reg, lis) => Start(s, senderId, reg, lis)
    case RetryRequest(reg, lis) => Retry(s, reg, lis)
    case Inbound(note, alive) => OnNotification(s, note, alive)
  }

  /** The steps of a request sequence, one per request; the last one ends in
      the state `After` names. */
  function Run(s: State, reqs: seq<Request>): (steps: seq<Step>)
    ensures |steps| == |reqs|
    ensures |reqs| > 0 ==> steps[|reqs| - 1].state == After(s, reqs)
    decreases |reqs|
  {
    if |reqs| == 0 then []
    else
      var first := Dispatch(s, reqs[0]);
      [first] + Run(first.state, reqs[1..])
  }

  /** The state after a request sequence. */
  function After(s: State, reqs: seq<Request>): State
    decreases |reqs|
  {
    if |reqs| == 0 then s else After(Dispatch(s, reqs[0]).state, reqs[1..])
  }

  /** The persistent ids of the inbound notifications, in arrival order. */
  function InboundIds(reqs: seq<Request>): seq<string>
  {
    if |reqs| == 0 then []
    else (if reqs[0].Inbound? then [reqs[0].note.persistentId] else []) + InboundIds(reqs[1..])
  }

  lemma DispatchKeepsConsistent(s: State, req: Request)
    requires Consistent(s)
    ensures Consistent(Dispatch(s, req).state)
  {
  }

  lemma {:induction false} RunKeepsConsistent(s: State, reqs: seq<Request>)
    requires Consistent(s)
    ensures Consistent(After(s, reqs))
    decreases |reqs|
  {
    if |reqs| > 0 {
      DispatchKeepsConsistent(s, reqs[0]);
      RunKeepsConsistent(Dispatch(s, reqs[0]).state, reqs[1..]);
    }
  }

  /** Each notification appends its persistent id; nothing else touches the
      sequence, so after any interleaving it holds exactly the inbound ids in
      arrival order after the ids stored before. */
  lemma {:induction false} RunAppendsPersistentIds(s: State, reqs: seq<Request>)
    ensures After(s, reqs).store.persistentIds == s.store.persistentIds + InboundIds(reqs)
    decreases |reqs|
  {
    if |reqs| > 0 {
      RunAppendsPersistentIds(Dispatch(s, reqs[0]).state, reqs[1..]);
    }
  }

  /** `started` and `registered` are never reset and stored credentials are
      never removed. */
  lemma {:induction false} RunNeverResets(s: State, reqs: seq<Request>)
    ensures s.service.started ==> After(s, reqs).service.started
    ensures s.service.registered ==> After(s, reqs).service.registered
    ensures s.store.credentials.Some? ==> After(s, reqs).store.credentials.Some?
    decreases |reqs|
  {
    if |reqs| > 0 {
      RunNeverResets(Dispatch(s, reqs[0]).state, reqs[1..]);
    }
  }

  /** Step `j` of a run is request `j` dispatched in the state the earlier
      requests lead to. */
  lemma {:induction false} RunStepAt(s: State, reqs: seq<Request>, j: nat)
    requires j < |reqs|
    ensures Run(s, reqs)[j] == Dispatch(After(s, reqs[..j]), reqs[j])
    decreases j
  {
    if j > 0 {
      var first := Dispatch(s, reqs[0]);
      RunStepAt(first.state, reqs[1..], j - 1);
      assert reqs[..j][1..] == reqs[1..][..j - 1];
    }
  }

  /** Once started, a start request never reaches the transport and leaves
      the store alone. It re-announces the stored token when credentials are
      stored and sends nothing otherwise. */
  lemma {:induction false} StartsAfterStartStayLocal(s: State, reqs: seq<Request>)
    requires s.service.started
    ensures forall j :: 0 <= j < |reqs| && reqs[j].StartRequest? ==>
              var before := After(s, reqs[..j]).store;
              && Run(s, reqs)[j].calls == []
              && Run(s, reqs)[j].state.store == before
              && (before.credentials.Some? ==> Run(s, reqs)[j].events == [Started(TokenOf(before.credentials.value))])
              && (before.credentials.None? ==> Run(s, reqs)[j].events == [])
  {
    forall j | 0 <= j < |reqs| && reqs[j].StartRequest?
      ensures var before := After(s, reqs[..j]).store;
              && Run(s, reqs)[j].calls == []
              && Run(s, reqs)[j].state.store == before
              && (before.credentials.Some? ==> Run(s, reqs)[j].events == [Started(TokenOf(before.credentials.value))])
              && (before.credentials.None? ==> Run(s, reqs)[j].events == [])
    {
      RunStepAt(s, reqs, j);
      RunNeverResets(s, reqs[..j]);
    }
  }

  /** Step `j` of a run is step `j - 1` of the run of the remaining
      requests from the state the first request leads to. */
  lemma RunTailAt(s: State, reqs: seq<Request>, j: nat)
    requires 1 <= j < |reqs|
    ensures Run(s, reqs)[j] == Run(Dispatch(s, reqs[0]).state, reqs[1..])[j - 1]
    ensures reqs[1..][j - 1] == reqs[j]
  {
  }

  /** Of all start requests in a lifetime only the first can call register
      or listen. */
  lemma {:induction false} OnlyFirstStartReachesTransport(s: State, reqs: seq<Request>)
    ensures forall i, j :: 0 <= i < j < |reqs| && reqs[i].StartRequest? && reqs[j].StartRequest? ==>
              Run(s, reqs)[j].calls == []
    decreases |reqs|
  {
    if |reqs| > 0 {
      var first := Dispatch(s, reqs[0]);
      if reqs[0].StartRequest? {
        StartsAfterStartStayLocal(first.state, reqs[1..]);
      }
      OnlyFirstStartReachesTransport(first.state, reqs[1..]);
      forall i, j | 0 <= i < j < |reqs| && reqs[i].StartRequest? && reqs[j].StartRequest?
        ensures Run(s, reqs)[j].calls == []
      {
        RunTailAt(s, reqs, j);
        if i > 0 {
          RunTailAt(s, reqs, i);
        }
      }
    }
  }

  /** `isRegistered` reports a completed registration: credentials are
      stored, the service has started, and retry is closed. */
  lemma IsRegisteredClosesRetry(s: State, reg: RegisterResult, lis: ListenResult)
    requires Consistent(s) && IsRegistered(s)
    ensures s.store.credentials.Some? && s.service.started
    ensures !RetryEligible(s.service)
    ensures Retry(s, reg, lis) == Step(s, [], [])
  {
  }
}
