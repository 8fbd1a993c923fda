/** Data model of the push-receiver bridge: the in-memory service flags, the
    persisted configuration store, the credentials the push transport hands
    back, and the two logs a transition produces (events sent to the renderer
    and calls made on the transport).
 */
module Types {

  datatype Option<+T> = None | Some(value: T)

  /** The `fcm` part of a credential record. Its token may itself be missing. */
  datatype Fcm = Fcm(token: Option<string>)

  /** Credentials returned by a successful register call. Everything but the
      `fcm` sub-record is opaque to the service and stored verbatim. */
  datatype Creds = Creds(material: string, fcm: Option<Fcm>)

  /** What a listen session delivers for one inbound message. */
  datatype Notification = Notification(payload: string, persistentId: string)

  /** Messages sent to the renderer process. */
  datatype Event =
    | Started(token: Option<string>)        // NOTIFICATION_SERVICE_STARTED
    | TokenUpdated(token: Option<string>)   // TOKEN_UPDATED
    | Received(payload: string)             // NOTIFICATION_RECEIVED
    | Error(message: string)                // NOTIFICATION_SERVICE_ERROR

  /** Calls made on the push transport. A listen call carries the credentials
      merged with the persistent ids already seen. */
  datatype TransportCall =
    | Register(senderId: string)
    | Listen(creds: Creds, persistentIds: seq<string>)

  /** The transport's answer to a register call, supplied as an input. */
  datatype RegisterResult = RegisterOk(creds: Creds) | RegisterFailed(message: string)

  /** The transport's answer to a listen call, supplied as an input. */
  datatype ListenResult = ListenOk | ListenFailed(message: string)

  /** The module-level flags: `started`, `registered` and the cached `_senderId`. */
  datatype Service = Service(started: bool, registered: bool, senderId: Option<string>)

  /** The persisted configuration. An absent `persistentIds` key reads as the
      empty sequence, so it is kept as a plain sequence here. */
  datatype Store = Store(credentials: Option<Creds>, senderId: Option<string>, persistentIds: seq<string>)

  datatype State = State(service: Service, store: Store)

  /** The outcome of one transition: the new state and what it sent and called. */
  datatype Step = Step(state: State, events: seq<Event>, calls: seq<TransportCall>)

  /** The message of the TypeError raised when `credentials.fcm` is undefined
      and its `token` is read. */
  const TypeErrorMessage: string := "Cannot read properties of undefined (reading 'token')"

  /** The token read as `(credentials.fcm || {}).token`: missing when either
      the `fcm` record or its token is missing. */
  function TokenOf(c: Creds): Option<string>
  {
    if c.fcm.Some? then c.fcm.value.token else None
  }

  /** True when `credentials.fcm.token` can be read without a TypeError. */
  predicate TokenReadable(store: Store)
  {
    store.credentials.Some? && store.credentials.value.fcm.Some?
  }

  predicate CallsRegister(calls: seq<TransportCall>)
  {
    exists i :: 0 <= i < |calls| && calls[i].Register?
  }

  predicate CallsListen(calls: seq<TransportCall>)
  {
    exists i :: 0 <= i < |calls| && calls[i].Listen?
  }

  predicate SendsStarted(events: seq<Event>)
  {
    exists i :: 0 <= i < |events| && events[i].Started?
  }

  predicate SendsTokenUpdated(events: seq<Event>)
  {
    exists i :: 0 <= i < |events| && events[i].TokenUpdated?
  }

  predicate SendsError(events: seq<Event>)
  {
    exists i :: 0 <= i < |events| && events[i].Error?
  }
}
