# electron-push-receiver: the registration controller

This project models the main-process side of electron-push-receiver
(`src/index.js`). That code bridges an Electron app to FCM/GCM push. When
the renderer sends START_NOTIFICATION_SERVICE with a senderId, it does one
of two things. It registers with the push transport when needed. Otherwise
it reuses the credentials it stored earlier. Then it opens a listen
session and reports progress back to the renderer as events. It also
keeps the persistent id of every delivered notification, so the next
listen session does not deliver them again. The main process can call
`retryRegister` after a failure.

The model is functional:

- `Types` holds the data. The module flags `started`, `registered` and
  `_senderId` are a `Service` record. The electron-config store is a
  `Store` record with credentials, saved senderId and persistent ids.
  Credentials are opaque apart from their `fcm` sub-record and its token.
  There are two outputs: the events sent to the renderer (`Started`,
  `TokenUpdated`, `Received`, `Error`) and the calls made on the transport
  (`Register`, `Listen`).
- `Controller` holds one pure transition per entry point. The transport's
  answers (`RegisterResult`, `ListenResult`) are explicit inputs. Each
  transition returns the new state, the events sent and the transport
  calls made.
- `Lifecycle` treats a process lifetime as a serialized sequence of
  requests: starts, retries and inbound notifications. It defines the
  invariant the controller keeps and proves the properties that span
  several requests.
- `Scenarios` holds concrete runs and the retry windows they open or
  close.

Behaviour of `src/index.js` that is easy to misread, as the model has it:

- The reuse (cache-hit) path never sets `registered`. After a start that
  hits the cache, retry stays open and listens again.
- A failed attempt can leave `registered` true. Line 85 sets it before the
  token is read (line 88) and before listen is called (line 91), so a
  failure at either point keeps it. After a listen failure that follows a
  fresh registration, retry is therefore closed. Credentials without an
  `fcm` record make `credentials.fcm.token` throw a TypeError, which the
  catch block turns into an error event. After a fresh registration the
  store has already been written by then.
- A repeated start still overwrites the cached senderId.
- After a failed first registration, a successful retry sends
  `TokenUpdated` and no started event. Only a later start request
  re-announces the token (line 39).
- A repeated start with no stored credentials sends nothing. Line 35 caches
  the new senderId, then line 39 reads `credentials.fcm` of an undefined
  value and throws. The model keeps the new senderId and sends no event.
- Retry runs the whole of `_register`, so it registers again when
  credentials are still missing or the senderId changed.

## Model

| member | source | states |
|---|---|---|
| Controller.Attempt | src/index.js:67-102 | stated by four predicates (writes, calls, event order, event causes), each proved by its own lemma about the body. Register fires exactly when credentials are missing or the saved senderId differs. On success the store gets both keys and `registered` becomes true; otherwise the store and `registered` are untouched. Listen always gets the pre-attempt persistent ids. `TokenUpdated` can only come first. Register and listen are each called at most once, and there is never a `Received` event. Any failure sends exactly one error, last, and stops the attempt. Started is sent at most once, exactly after a successful non-retry listen, with the current token |
| Controller.Start | src/index.js:34-46 | the senderId is always cached and `started` ends true. A repeated start makes no transport call and leaves the store and `registered` alone. It sends only `Started` with the stored token when credentials are stored, and nothing otherwise. A first start runs register-or-reuse in non-retry mode |
| Controller.Retry | src/index.js:104-110 | outside the guard (non-empty cached senderId, started, not registered) nothing happens. Inside it, register-or-reuse runs in retry mode. A retry never sends a started event |
| Controller.OnNotification | src/index.js:50-61 | the persistent id is appended after the stored ids, and credentials and senderId are untouched. The payload is forwarded only when the window is alive. No transport call |
| Lifecycle.Dispatch | src/index.js:34-110 | a notification appends exactly its id; starts and retries leave the ids alone. `started`, `registered` and stored credentials are never lost |
| Lifecycle.Run | src/index.js:34-110 | one step per request, and the last step ends in the state `After` reaches over the same requests |
| Lifecycle.RunStepAt | src/index.js:34-110 | step `j` of a run is request `j` dispatched in the state the first `j` requests lead to |
| Lifecycle.DispatchKeepsConsistent | src/index.js:77-85 | every transition keeps the invariant: credentials and saved senderId are present together, the senderId is cached exactly when started, and registered implies started and stored credentials |
| Lifecycle.RunKeepsConsistent | src/index.js:26-45 | that invariant holds after any request sequence |
| Lifecycle.RunAppendsPersistentIds | src/index.js:52-54 | after any interleaving of requests the stored ids are the earlier ids followed by exactly the inbound ids, in arrival order, duplicates kept |
| Lifecycle.RunNeverResets | src/index.js:43-85 | over any request sequence, `started` and `registered` are never reset and stored credentials never disappear |
| Lifecycle.StartsAfterStartStayLocal | src/index.js:38-42 | once started, every later start makes no transport call and leaves the store alone. It sends exactly one started event with the stored token when credentials are stored, and nothing otherwise |
| Lifecycle.OnlyFirstStartReachesTransport | src/index.js:34-46 | among all start requests of a lifetime, only the first can call register or listen |
| Lifecycle.IsRegisteredClosesRetry | src/index.js:63-65 | when `isRegistered` is true, credentials are stored, the service has started, and retry is a no-op |
| Scenarios.FirstStartOnEmptyStore | src/index.js:77-96 | a first start on an empty store yields `Register`, `Listen(creds, [])`, then `TokenUpdated(token1)`, `Started(token1)`; the store ends with the credentials and senderId |
| Scenarios.NotificationWhileListening | src/index.js:51-59 | a notification with id p1 on an empty id list stores ["p1"] and forwards its payload |
| Scenarios.SenderIdChangeForcesRegistration | src/index.js:77-79 | credentials saved for another senderId still lead to a register call |
| Scenarios.RegisterFailureKeepsRetryOpen | src/index.js:79-101 | a failed register sends one error, writes nothing, leaves `registered` false and opens retry |
| Scenarios.ListenFailureAfterRegistrationClosesRetry | src/index.js:85-101 | after a fresh registration, a listen failure sends the token update then the error; `registered` stays true and retry is a no-op |
| Scenarios.CacheHitLeavesRetryOpen | src/index.js:77-91 | a cache-hit start does not register, leaves the store and `registered` alone, and a later retry listens again with the stored credentials |
| Scenarios.RetryBeforeStartIsNoOp | src/index.js:107-108 | retry before any start changes nothing and sends nothing |
| Scenarios.RetryAfterFailedRegistrationSendsNoStart | src/index.js:36-108 | a start whose register fails, followed by a successful retry, sends the error and then only the token update, and ends registered. A later start request then sends `Started` with the new token |
| Scenarios.RepeatedStartAfterFailedRegistrationSendsNothing | src/index.js:35-39 | on a store with no credentials, after a failed first registration, a second start only replaces the cached senderId: no event, no transport call, store unchanged, retry still open |

## Left out

- Electron IPC: `ipcMain` and `webContents.send` become appends to the event log. Window liveness is a boolean input, and only the notification callback checks it. A send to a destroyed window outside that callback is not modelled.
- The push-receiver wire protocol: register and listen are modelled only by their outcome, which is an input. The notification callback given to listen is modelled as the `Inbound` request. `Inbound` is accepted in every state, even before any listen succeeded, so the model allows more notification timings than src/index.js can produce; the properties proved hold for all of them.
- electron-config persistence: the store is an in-memory record. Read and write failures of the store are not modelled.
- `console.log` and `console.error` output.
- Asynchronous scheduling: each transition is atomic and requests form one serialized sequence, so overlapping attempts are not modelled. In src/index.js `_register` is fire-and-forget: `retryRegister` can pass the guard at line 107 while the first `_register` is still awaiting register at line 79 (`registered` still false), and two attempts then overlap. Notifications arriving during an awaited register or listen are not modelled either.
- The TypeError thrown at line 39 by a repeated start with no stored credentials escapes the IPC handler as an unhandled rejection. The model keeps only its visible effect: the senderId is cached, nothing is sent.
- The TypeError message is modelled as one fixed string. The exact wording depends on the JavaScript engine.
- The senderId is modelled as a string. src/index.js accepts any IPC value; the retry guard only tests it for truthiness, modelled as "present and non-empty".
- The exported event-name constants live in `src/constants.js`, which is not part of this model.
