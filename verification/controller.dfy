/** The registration controller of src/index.js as pure transitions. Each
    entry point takes the current state and the transport's answers and
    returns the new state together with the events it sent and the transport
    calls it made. Every transition runs to completion before the next one.
 */
module Controller {
  import opened Types

  /** The register-or-reuse decision: register when no credentials are
      stored or the stored senderId differs from the active one. */
  predicate NeedsRegistration(store: Store, senderId: string)
  {
    store.credentials.None? || store.senderId != Some(senderId)
  }

  /** The retry guard: a non-empty senderId is cached, the service has
      started and registration has not completed. */
  predicate RetryEligible(svc: Service)
  {
    svc.senderId.Some? && svc.senderId.value != "" && svc.started && !svc.registered
  }

  /** The body of `_register(webContents, retry)`: register when needed,
      then listen. Any failure is caught and sent as one error event, which
      ends the attempt. Its contract is `Attempt`'s. */
  function RegisterOrReuse(s: State, senderId: string, retry: bool, reg: RegisterResult, lis: ListenResult): Step
  {
    var ids := s.store.persistentIds;
    if NeedsRegistration(s.store, senderId) then
      match reg
      case RegisterFailed(msg) => Step(s, [Error(msg)], [Register(senderId)])
      case RegisterOk(creds) =>
        // lines 81-85 write both keys and set `registered` before the token is read
        var s' := State(s.service.(registered := true),
                        s.store.(credentials := Some(creds), senderId := Some(senderId)));
        if creds.fcm.None? then Step(s', [Error(TypeErrorMessage)], [Register(senderId)])
        else
          var token := creds.fcm.value.token;
          var calls := [Register(senderId), Listen(creds, ids)];
          match lis
          case ListenFailed(msg) => Step(s', [TokenUpdated(token), Error(msg)], calls)
          case ListenOk =>
            if retry then Step(s', [TokenUpdated(token)], calls)
            else Step(s', [TokenUpdated(token), Started(token)], calls)
    else
      var creds := s.store.credentials.value;
      var calls := [Listen(creds, ids)];
      match lis
      case ListenFailed(msg) => Step(s, [Error(msg)], calls)
      case ListenOk =>
        if retry then Step(s, [], calls)
        else if creds.fcm.None? then Step(s, [Error(TypeErrorMessage)], calls)
        else Step(s, [Started(creds.fcm.value.token)], calls)
  }

  /** What an attempt does to the flags and the store: only a successful
      registration changes them, by setting `registered` and writing both
      store keys together. */
  ghost predicate AttemptWrites(s: State, senderId: string, reg: RegisterResult, r: Step)
  {
    // the flags other than `registered` are never touched
    && r.state.service.started == s.service.started
    && r.state.service.senderId == s.service.senderId
    // `registered` is promoted exactly by a successful registration
    && (r.state.service.registered <==>
          s.service.registered || (NeedsRegistration(s.store, senderId) && reg.RegisterOk?))
    // the store changes only by a successful registration, and then both keys together
    && r.state.store.persistentIds == s.store.persistentIds
    && (!(NeedsRegistration(s.store, senderId) && reg.RegisterOk?) ==> r.state.store == s.store)
    && (NeedsRegistration(s.store, senderId) && reg.RegisterOk? ==>
          r.state.store.credentials == Some(reg.creds) && r.state.store.senderId == Some(senderId))
  }

  /** The transport calls of an attempt: register exactly on the decision
      rule and first, then listen once with the current credentials unless
      registration failed. */
  ghost predicate AttemptCalls(s: State, senderId: string, reg: RegisterResult, r: Step)
  {
    && (CallsRegister(r.calls) <==> NeedsRegistration(s.store, senderId))
    && (forall i :: 0 <= i < |r.calls| && r.calls[i].Register? ==> i == 0 && r.calls[i].senderId == senderId)
    && (CallsListen(r.calls) <==> !NeedsRegistration(s.store, senderId) || (reg.RegisterOk? && reg.creds.fcm.Some?))
    && (forall i :: 0 <= i < |r.calls| && r.calls[i].Listen? ==>
          r.state.store.credentials == Some(r.calls[i].creds) && r.calls[i].persistentIds == s.store.persistentIds)
    // one register call at most, one listen call at most, nothing else
    && |r.calls| == (if NeedsRegistration(s.store, senderId) then 1 else 0) + (if CallsListen(r.calls) then 1 else 0)
  }

  /** The order of an attempt's events: a token update first, then at most
      one started or error event, never a notification, and every token the
      current one. */
  ghost predicate AttemptEventOrder(r: Step)
  {
    && |r.events| ==
         (if SendsTokenUpdated(r.events) then 1 else 0) + (if SendsStarted(r.events) || SendsError(r.events) then 1 else 0)
    && (forall i :: 0 <= i < |r.events| ==> !r.events[i].Received?)
    && (forall i :: 0 <= i < |r.events| && r.events[i].TokenUpdated? ==>
          i == 0 && TokenReadable(r.state.store) && r.events[i].token == TokenOf(r.state.store.credentials.value))
    && (forall i :: 0 <= i < |r.events| && r.events[i].Error? ==> i == |r.events| - 1)
    && (forall i :: 0 <= i < |r.events| && r.events[i].Started? ==>
          r.state.store.credentials.Some? && r.events[i].token == TokenOf(r.state.store.credentials.value))
  }

  /** When an attempt sends each kind of event: a token update after a
      registration whose token can be read, started after a successful
      listen outside a retry, and an error, carrying the failure's message,
      exactly when the attempt fails. */
  ghost predicate AttemptEventCauses(s: State, senderId: string, retry: bool, reg: RegisterResult,
                                     lis: ListenResult, r: Step)
  {
    && (SendsTokenUpdated(r.events) <==> NeedsRegistration(s.store, senderId) && reg.RegisterOk? && reg.creds.fcm.Some?)
    && (SendsStarted(r.events) <==> CallsListen(r.calls) && lis.ListenOk? && !retry && TokenReadable(r.state.store))
    && (SendsError(r.events) <==> !(CallsListen(r.calls) && lis.ListenOk? && (retry || TokenReadable(r.state.store))))
    && (NeedsRegistration(s.store, senderId) && reg.RegisterFailed? ==> r.events == [Error(reg.message)])
    && (CallsListen(r.calls) && lis.ListenFailed? ==> |r.events| > 0 && r.events[|r.events| - 1] == Error(lis.message))
  }

  lemma RegisterOrReuseWrites(s: State, senderId: string, retry: bool, reg: RegisterResult, lis: ListenResult)
    ensures AttemptWrites(s, senderId, reg, RegisterOrReuse(s, senderId, retry, reg, lis))
  {
  }

  lemma RegisterOrReuseCalls(s: State, senderId: string, retry: bool, reg: RegisterResult, lis: ListenResult)
    ensures AttemptCalls(s, senderId, reg, RegisterOrReuse(s, senderId, retry, reg, lis))
  {
    var r := RegisterOrReuse(s, senderId, retry, reg, lis);
    // a register call can only come first, a listen call only last
    assert CallsRegister(r.calls) <==> r.calls[0].Register?;
    assert CallsListen(r.calls) <==> r.calls[|r.calls| - 1].Listen?;
  }

  lemma RegisterOrReuseEventOrder(s: State, senderId: string, retry: bool, reg: RegisterResult, lis: ListenResult)
    ensures AttemptEventOrder(RegisterOrReuse(s, senderId, retry, reg, lis))
  {
    var r := RegisterOrReuse(s, senderId, retry, reg, lis);
    // a token update can only come first, a started or error event only last
    assert |r.events| > 0 ==>
             && (SendsTokenUpdated(r.events) <==> r.events[0].TokenUpdated?)
             && (SendsStarted(r.events) <==> r.events[|r.events| - 1].Started?)
             && (SendsError(r.events) <==> r.events[|r.events| - 1].Error?);
  }

  lemma RegisterOrReuseEventCauses(s: State, senderId: string, retry: bool, reg: RegisterResult, lis: ListenResult)
    ensures AttemptEventCauses(s, senderId, retry, reg, lis, RegisterOrReuse(s, senderId, retry, reg, lis))
  {
    var r := RegisterOrReuse(s, senderId, retry, reg, lis);
    assert CallsListen(r.calls) <==> r.calls[|r.calls| - 1].Listen?;
    assert |r.events| > 0 ==>
             && (SendsTokenUpdated(r.events) <==> r.events[0].TokenUpdated?)
             && (SendsStarted(r.events) <==> r.events[|r.events| - 1].Started?)
             && (SendsError(r.events) <==> r.events[|r.events| - 1].Error?);
  }

  /** `_register(webContents, retry)` with its contract: the writes, the
      transport calls, and the order and causes of the events. */
  function Attempt(s: State, senderId: string, retry: bool, reg: RegisterResult, lis: ListenResult): (r: Step)
    ensures AttemptWrites(s, senderId, reg, r)
    ensures AttemptCalls(s, senderId, reg, r)
    ensures AttemptEventOrder(r)
    ensures AttemptEventCauses(s, senderId, retry, reg, lis, r)
  {
    RegisterOrReuseWrites(s, senderId, retry, reg, lis);
    RegisterOrReuseCalls(s, senderId, retry, reg, lis);
    RegisterOrReuseEventOrder(s, senderId, retry, reg, lis);
    RegisterOrReuseEventCauses(s, senderId, retry, reg, lis);
    RegisterOrReuse(s, senderId, retry, reg, lis)
  }

  /** The START_NOTIFICATION_SERVICE handler. The senderId is cached first;
      a repeated start only re-announces the stored token. src/index.js reads
      `credentials.fcm` there without a guard, so a repeated start with no
      stored credentials throws before sending anything: only the cached
      senderId changes. */
  function Start(s: State, senderId: string, reg: RegisterResult, lis: ListenResult): (r: Step)
    ensures r.state.service.senderId == Some(senderId)
    ensures r.state.service.started
    ensures s.service.started ==>
              && r.state.store == s.store
              && r.state.service.registered == s.service.registered
              && r.calls == []
    ensures s.service.started && s.store.credentials.Some? ==>
              r.events == [Started(TokenOf(s.store.credentials.value))]
    ensures s.service.started && s.store.credentials.None? ==> r.events == []
    ensures !s.service.started ==>
              r == Attempt(State(Service(true, s.service.registered, Some(senderId)), s.store), senderId, false, reg, lis)
  {
    var svc := s.service.(senderId := Some(senderId));
    if s.service.started then
      if s.store.credentials.Some? then
        Step(State(svc, s.store), [Started(TokenOf(s.store.credentials.value))], [])
      else
        Step(State(svc, s.store), [], [])
    else
      Attempt(State(svc.(started := true), s.store), senderId, false, reg, lis)
  }

  /** `retryRegister`: re-runs register-or-reuse in retry mode inside the
      guarded window, and does nothing outside it. */
  function Retry(s: State, reg: RegisterResult, lis: ListenResult): (r: Step)
    ensures !RetryEligible(s.service) ==> r == Step(s, [], [])
    ensures RetryEligible(s.service) ==> r == Attempt(s, s.service.senderId.value, true, reg, lis)
    ensures !SendsStarted(r.events)
  {
    if RetryEligible(s.service) then Attempt(s, s.service.senderId.value, true, reg, lis)
    else Step(s, [], [])
  }

  /** `isRegistered`. */
  function IsRegistered(s: State): bool
  {
    s.service.registered
  }

  /** The callback built by `onNotification`: append the persistent id in
      arrival order, then forward the payload if the window still exists. */
  function OnNotification(s: State, note: Notification, alive: bool): (r: Step)
    ensures r.state.service == s.service
    ensures r.state.store.credentials == s.store.credentials && r.state.store.senderId == s.store.senderId
    ensures |r.state.store.persistentIds| == |s.store.persistentIds| + 1
    ensures r.state.store.persistentIds[..|s.store.persistentIds|] == s.store.persistentIds
    ensures r.state.store.persistentIds[|s.store.persistentIds|] == note.persistentId
    ensures r.calls == []
    ensures alive ==> r.events == [Received(note.payload)]
    ensures !alive ==> r.events == []
  {
    var store' := s.store.(persistentIds := s.store.persistentIds + [note.persistentId]);
    Step(State(s.service, store'), if alive then [Received(note.payload)] else [], [])
  }
}
