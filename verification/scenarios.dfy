/** Concrete runs and the retry windows they open or close. */
module Scenarios {
  import opened Types
  import opened Controller
  import opened Lifecycle

  const EmptyStore := Store(None, None, [])

  /** A first start on an empty store registers once, listens once, and
      sends the new token twice: as an update, then as the start. */
  lemma FirstStartOnEmptyStore()
    ensures
      var creds := Creds("keys", Some(Fcm(Some("token1"))));
      var r := Start(Initial(EmptyStore), "sender-1", RegisterOk(creds), ListenOk);
      && r.calls == [Register("sender-1"), Listen(creds, [])]
      && r.events == [TokenUpdated(Some("token1")), Started(Some("token1"))]
      && r.state.store == Store(Some(creds), Some("sender-1"), [])
      && IsRegistered(r.state)
  {
  }

  /** One notification while listening: its id is stored and its payload
      forwarded. */
  lemma NotificationWhileListening(s: State)
    requires s.store.persistentIds == []
    ensures
      var r := OnNotification(s, Notification("N1", "p1"), true);
      r.state.store.persistentIds == ["p1"] && r.events == [Received("N1")]
  {
  }

  /** Stored credentials for another senderId do not prevent registration. */
  lemma SenderIdChangeForcesRegistration(store: Store, saved: string, senderId: string,
                                         reg: RegisterResult, lis: ListenResult)
    requires store.credentials.Some? && store.senderId == Some(saved) && saved != senderId
    ensures CallsRegister(Start(Initial(store), senderId, reg, lis).calls)
  {
  }

  /** A failed registration sends one error, writes nothing, leaves
      `registered` false and so keeps retry open. */
  lemma RegisterFailureKeepsRetryOpen(store: Store, senderId: string, msg: string, lis: ListenResult)
    requires senderId != "" && NeedsRegistration(store, senderId)
    ensures
      var r := Start(Initial(store), senderId, RegisterFailed(msg), lis);
      && r.events == [Error(msg)]
      && r.state.store == store
      && !IsRegistered(r.state)
      && RetryEligible(r.state.service)
  {
  }

  /** `registered` is set before listen is attempted, so a listen failure
      after a fresh registration closes retry for good. */
  lemma ListenFailureAfterRegistrationClosesRetry(store: Store, senderId: string, creds: Creds, msg: string,
                                                  reg: RegisterResult, lis: ListenResult)
    requires NeedsRegistration(store, senderId) && creds.fcm.Some?
    ensures
      var r := Start(Initial(store), senderId, RegisterOk(creds), ListenFailed(msg));
      && r.events == [TokenUpdated(creds.fcm.value.token), Error(msg)]
      && IsRegistered(r.state)
      && Retry(r.state, reg, lis) == Step(r.state, [], [])
  {
  }

  /** Reusing stored credentials never sets `registered`: even after a
      successful cache-hit start, retry stays open and listens again. */
  lemma CacheHitLeavesRetryOpen(store: Store, senderId: string, reg: RegisterResult, lis: ListenResult)
    requires senderId != "" && !NeedsRegistration(store, senderId)
    ensures
      var r := Start(Initial(store), senderId, reg, ListenOk);
      && !CallsRegister(r.calls)
      && r.state.store == store
      && !IsRegistered(r.state)
      && RetryEligible(r.state.service)
      && Retry(r.state, reg, lis).calls == [Listen(store.credentials.value, store.persistentIds)]
  {
  }

  /** Retry before any start is a no-op. */
  lemma RetryBeforeStartIsNoOp(store: Store, reg: RegisterResult, lis: ListenResult)
    ensures Retry(Initial(store), reg, lis) == Step(Initial(store), [], [])
  {
  }

  /** After a failed first registration, a successful retry sends the token
      update and no started event. Only a later start request re-announces
      the token, now that credentials are stored. */
  lemma RetryAfterFailedRegistrationSendsNoStart(store: Store, senderId: string, msg: string,
                                                 lis: ListenResult, creds: Creds, again: string)
    requires senderId != "" && NeedsRegistration(store, senderId) && creds.fcm.Some?
    ensures
      var reqs := [StartRequest(senderId, RegisterFailed(msg), lis), RetryRequest(RegisterOk(creds), ListenOk),
                   StartRequest(again, RegisterFailed(msg), lis)];
      && Run(Initial(store), reqs)[0].events == [Error(msg)]
      && Run(Initial(store), reqs)[1].events == [TokenUpdated(creds.fcm.value.token)]
      && Run(Initial(store), reqs)[2].events == [Started(creds.fcm.value.token)]
      && IsRegistered(After(Initial(store), reqs))
  {
    var reqs := [StartRequest(senderId, RegisterFailed(msg), lis), RetryRequest(RegisterOk(creds), ListenOk),
                 StartRequest(again, RegisterFailed(msg), lis)];
    var s1 := Dispatch(Initial(store), reqs[0]).state;
    var s2 := Dispatch(s1, reqs[1]).state;
    var s3 := Dispatch(s2, reqs[2]).state;
    assert reqs[1..] == [reqs[1], reqs[2]];
    assert reqs[1..][1..] == [reqs[2]];
    assert reqs[1..][1..][1..] == [];
    assert Run(s2, reqs[1..][1..]) == [Dispatch(s2, reqs[2])];
    assert Run(s1, reqs[1..]) == [Dispatch(s1, reqs[1]), Dispatch(s2, reqs[2])];
    assert Run(Initial(store), reqs) == [Dispatch(Initial(store), reqs[0]), Dispatch(s1, reqs[1]), Dispatch(s2, reqs[2])];
    assert After(Initial(store), reqs) == After(s1, reqs[1..]) == After(s2, reqs[1..][1..]) == s3;
  }

  /** When no credentials were stored, a failed first registration leaves
      none, so a repeated start reads `credentials.fcm` of nothing and
      throws: it only replaces the cached senderId, sends nothing and calls
      nothing, and retry stays open. */
  lemma RepeatedStartAfterFailedRegistrationSendsNothing(store: Store, first: string, second: string, msg: string,
                                                         lis: ListenResult, reg: RegisterResult)
    requires store.credentials.None? && first != "" && second != ""
    ensures
      var s1 := Start(Initial(store), first, RegisterFailed(msg), lis).state;
      var r := Start(s1, second, reg, lis);
      && r.events == [] && r.calls == []
      && r.state.store == store
      && r.state.service.senderId == Some(second)
      && RetryEligible(r.state.service)
  {
  }
}
