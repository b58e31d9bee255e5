# Azure broadcast client — a Dafny model

This project models the core of a small C# client library for real-time broadcast through an
Azure Function and the Azure SignalR service. A `BroadcastClient<T>` is configured with the base
URL of the Azure Function app and a user id. `Start()` calls the `api/negotiate` endpoint for a
connection URL and an access token, builds a SignalR hub connection, restarts that connection
whenever it closes, and hands every inbound `newMessage` frame to the `onMessage` callback.
`Send`, `SendToGroup` and `SendToUser` post a `MessageWrapper` envelope to `api/broadcast`.
`JoinGroup` and `LeaveGroup` post a `GroupActionMessage` to `api/groupaction`. Two wire records
sit beside it: `GroupActionMessage` with its `GroupAction` enum, and the four-field
`BroadcastMessage` with short JSON keys.

Modules (one file each):

- `Wrappers` (`wrappers.dfy`): `Option`.
- `Json` (`json.dfy`): JSON as an abstract tree (an object is a key-to-value map). It also
  holds the nullable .NET `string` (`NullableString`) and how a string property is written
  and read.
- `GroupActions` (`group_actions.dfy`): the enum, its ordinals, its by-name serialisation and
  the group-action message.
- `BroadcastMessages` (`broadcast_messages.dfy`): the `jm`/`fu`/`tu`/`gn` envelope, its defaults,
  and its encoding to a map and back.
- `Endpoints` (`endpoints.dfy`): `urlEndsWithSlash` and the three endpoint URLs.
- `Envelopes` (`envelopes.dfy`): `MessageWrapper`, the three envelopes the send operations
  build, and the wrapper's serialisation.
- `ClientModel` (`client_model.dfy`): the client's state as a value, with one step function
  per operation or transport event. `Run` applies a sequence of events. The lemmas say what
  every such sequence preserves.
- `Client` (`client.dfy`): the class `BroadcastClient<T>` with the source's fields. Each
  method's postcondition equates the new `State()` with the matching step function applied
  to the old one.

I/O is passed in as parameters:
- The negotiate reply is `Option<ConnectionInfo>`. `None` means the GET or the reading of
  its body failed.
- The outcome of each `StartAsync` is a `bool`.
- The payload type's JSON reading is a function parameter `decodePayload`.
- The random reconnect draw is a nondeterministic choice in `[0, 5)`.
- Every HTTP request is appended to a `requests` log. Every callback invocation is appended
  to a `delivered` log.

## Behaviour as the code has it

- Reconnection restarts the same connection. Its token provider still returns the token
  captured at the first negotiation, and negotiate is not called again
  (`ClientModel.RunAfterConnect`).
- Recovery is not an unbounded retry loop. `Closed` fires only when a running connection
  closes. If a restart in the `Closed` handler (BroadcastClient.cs:78-82) fails, its
  exception goes into the `Task` that handler returns, which the SignalR library awaits and
  logs. The connection stays stopped in every host. If the initial `StartAsync` (line 91)
  fails, the exception escapes the `async void Start`. In a host that survives that, the
  connection likewise stays stopped. In both cases nothing ever starts the connection
  again, and `Start` is a no-op because the connection field is already set
  (`ClientModel.RunAfterFailedStart`). In a host without a synchronisation context, a failed
  initial start ends the process instead (see "## Left out").
- The publish body is a `MessageWrapper`. Its member names are the defaults: `msg`,
  `toGroupName`, `toUser`, `fromUser`. This assumes that the interface `IMessageInfo`
  (BroadcastClient.cs:15) carries no JSON naming attributes of its own. That interface
  is not part of this model. The short keys `jm`/`fu`/`tu`/`gn` belong only to
  `BroadcastMessage`, which the client never uses. The two envelopes are kept separate.
- The one-argument constructor uses `new Guid()`, which is the all-zero GUID, not a random
  identifier.
- A failed negotiation is not retried. It surfaces as an exception escaping `async void Start`.
  In a host that survives it, a later `Start` negotiates again, because the guard tests only
  whether a connection exists (`ClientModel.StartTwiceAfterFailedNegotiation`).

## Model

| member | source | states |
|---|---|---|
| `Endpoints.UrlEndsWithSlash` | BroadcastClient.cs:46-49 | the result has the input as a prefix, ends in `/`, and is no longer than any other such string; an input already ending in `/` is returned unchanged |
| `Endpoints.UrlEndsWithSlashIdempotent` | BroadcastClient.cs:46-49 | normalising twice is normalising once |
| `Endpoints.UrlEndsWithSlashUnique` | BroadcastClient.cs:46-49 | any shortest slash-terminated extension of the input is the normalised URL, i.e. the input unchanged or with exactly one `/` appended |
| `Endpoints.Path` | BroadcastClient.cs:53 | each operation's path is one segment below `api/`, and each operation gets exactly its own literal (an if-and-only-if per operation): `api/negotiate` here, `api/broadcast` at lines 96, 110 and 124, `api/groupaction` at lines 138 and 151 |
| `Endpoints.Url` | BroadcastClient.cs:53 | an endpoint URL is the stored base followed by exactly the operation's path |
| `Endpoints.UrlOfConfiguredBase` | BroadcastClient.cs:37-53 | for a configured URL, every endpoint keeps it as a prefix and ends in `/api/<operation>` |
| `Endpoints.UrlInjective` | BroadcastClient.cs:53-151 | `api/negotiate`, `api/broadcast` and `api/groupaction` URLs below one base are pairwise distinct |
| `Envelopes.BroadcastEnvelope` | BroadcastClient.cs:97-102 | `Send`'s envelope: sender is the client's id, payload is the message, both targets empty |
| `Envelopes.GroupEnvelope` | BroadcastClient.cs:111-116 | `SendToGroup`'s envelope: only the group target carries the argument; it equals `Send`'s envelope exactly when the group name is empty |
| `Envelopes.UserEnvelope` | BroadcastClient.cs:125-130 | `SendToUser`'s envelope: only the user target carries the argument; it equals `Send`'s envelope exactly when the user is empty |
| `Envelopes.TargetedEnvelopesDiffer` | BroadcastClient.cs:108-134 | a group envelope and a user envelope coincide if and only if both targets are empty |
| `Envelopes.EncodeWrapper` | BroadcastClient.cs:15-20 | the wrapper serialises to exactly the members `msg`, `toGroupName`, `toUser`, `fromUser`, each holding its field's value |
| `Envelopes.DecodeWrapper` | BroadcastClient.cs:85-88 | a frame that is not a JSON object (including null) yields no envelope; an object decodes exactly when its payload decodes and each present string member is a string or null; a decoded envelope agrees with every member present, and absent string members are null |
| `Envelopes.DecodeWrapperIgnoresUnknownKeys` | BroadcastClient.cs:85-88 | members other than `msg`, `toGroupName`, `toUser`, `fromUser` do not affect reading a frame |
| `Envelopes.WrapperRoundTrip` | BroadcastClient.cs:15-20 | reading back a serialised wrapper recovers it whenever the payload codec round-trips |
| `GroupActions.Ordinal` | GroupActionMessage.cs:16-20 | exactly two values: `Add` has ordinal 0 and `Remove` ordinal 1 |
| `GroupActions.ParseName` | GroupActionMessage.cs:15-20 | only the exact names `"Add"` and `"Remove"` parse, to the action of that name |
| `GroupActions.Name` | GroupActionMessage.cs:15-20 | parsing an action's name recovers the action |
| `GroupActions.NameInjective` | GroupActionMessage.cs:15-20 | two actions have the same name if and only if they are equal |
| `GroupActions.EncodeAction` | GroupActionMessage.cs:15 | the wire value is a JSON string, never the integer ordinal, and decodes back to the action |
| `GroupActions.DecodeAction` | GroupActionMessage.cs:15-20 | only the JSON string of an action's name decodes, to that action |
| `GroupActions.Encode` | GroupActionMessage.cs:8-12 | a message serialises to exactly `groupAction` (the action's name) and `groupName` (unchanged), and decodes back to itself |
| `GroupActions.Decode` | GroupActionMessage.cs:8-12 | an object decodes exactly when a present action is an action name and a present name is a string or null; the result agrees with the members present; an absent action defaults to `Add`, an absent name to null |
| `BroadcastMessages.Fresh` | BroadcastMessage.cs:5-16 | a fresh message has `toUser == ""` and `toGroupName == ""`, while `jsonmessage` and `fromUser` are null |
| `BroadcastMessages.Encode` | BroadcastMessage.cs:6-16 | the map has exactly four distinct keys `jm`, `fu`, `tu`, `gn` holding `jsonmessage`, `fromUser`, `toUser`, `toGroupName`, and decodes back to the message |
| `BroadcastMessages.Decode` | BroadcastMessage.cs:5-16 | decoding succeeds exactly when each present key holds a string or null; each present key's value becomes its property; absent keys keep the property defaults |
| `BroadcastMessages.DecodeIgnoresUnknownKeys` | BroadcastMessage.cs:5-16 | keys other than the four do not affect decoding |
| `BroadcastMessages.DecodeSenderOnly` | BroadcastMessage.cs:7-16 | an object with only `jm` and `fu` decodes to a fresh message with those two set |
| `ClientModel.EmptyGuid` | BroadcastClient.cs:30-33 | the default identity is the 36-character all-zero GUID in 8-4-4-4-12 form |
| `ClientModel.Initial` | BroadcastClient.cs:35-44 | a constructed client's base is exactly `UrlEndsWithSlash` of the URL (slash-terminated, extending it), the given id, one `x-ms-signalr-userid` header with that id, no connection, no callback and no requests |
| `ClientModel.StartStep` | BroadcastClient.cs:61-75 | `Start` is a no-op once a connection exists; otherwise it issues one negotiate GET and builds a started connection from the reply, or leaves none when there is no reply |
| `ClientModel.ReconnectDelay` | BroadcastClient.cs:80 | the reconnect delay is the draw in whole seconds: a multiple of 1000 ms in `[0, 4000]` |
| `ClientModel.ClosedStep` | BroadcastClient.cs:78-82 | closing a running connection restarts the same connection with the same connection info, counts one more start, and issues no request |
| `ClientModel.ReceiveStep` | BroadcastClient.cs:85-89 | a frame invokes the callback exactly once with `(wrapper.msg, wrapper)` when one is registered, the connection runs and the frame is an envelope, and otherwise not at all; without a running connection nothing changes |
| `ClientModel.SetOnMessageStep` | BroadcastClient.cs:28 | assigning `onMessage` changes only whether a callback is registered |
| `ClientModel.PostStep` | BroadcastClient.cs:103-105 | a post appends exactly one request to the operation's URL and changes nothing else |
| `ClientModel.SendStep` | BroadcastClient.cs:94-106 | `Send` appends one POST to `Url(base, Broadcast)` carrying the broadcast envelope (from the client's id, to no user, to no group) and changes nothing else |
| `ClientModel.SendToGroupStep` | BroadcastClient.cs:108-120 | `SendToGroup` appends one POST to `Url(base, Broadcast)` carrying the group envelope for `groupName` and changes nothing else |
| `ClientModel.SendToUserStep` | BroadcastClient.cs:122-134 | `SendToUser` appends one POST to `Url(base, Broadcast)` carrying the user envelope for `user` and changes nothing else |
| `ClientModel.JoinGroupStep` | BroadcastClient.cs:137-148 | `JoinGroup` appends one POST to `Url(base, GroupAction)` carrying an `Add` message for `groupName` and changes nothing else |
| `ClientModel.LeaveGroupStep` | BroadcastClient.cs:150-161 | `LeaveGroup` appends one POST to `Url(base, GroupAction)` carrying a `Remove` message for `groupName` and changes nothing else |
| `ClientModel.StepPosts` | BroadcastClient.cs:94-161 | each event adds to the POST log exactly the request expected of it, which depends only on base URL and user id |
| `ClientModel.RunKeepsIdentity` | BroadcastClient.cs:35-161 | no sequence of operations changes the base URL, the user id or the default headers |
| `ClientModel.RunPostsFollowEvents` | BroadcastClient.cs:94-161 | after any sequence of events the POSTs are exactly one per send or group operation, in order, each with the expected URL and body |
| `ClientModel.RunAfterConnect` | BroadcastClient.cs:61-82 | once a connection exists it persists with the same connection info (token reused), and no further negotiate call is made |
| `ClientModel.RunAfterFailedStart` | BroadcastClient.cs:64-91 | a connection whose start failed is never restarted and no callback is invoked thereafter |
| `ClientModel.RunDeliveries` | BroadcastClient.cs:85-89 | the callback log only grows, by at most one invocation per frame, and each invocation is passed the wrapper's own payload |
| `ClientModel.StartTwice` | BroadcastClient.cs:61-75 | two `Start` calls, the first negotiation succeeding, make one negotiate call and one connection built from the first reply |
| `ClientModel.StartTwiceAfterFailedNegotiation` | BroadcastClient.cs:61-75 | after a failed negotiation the next `Start` negotiates again; a connection exists exactly when the second reply arrives |
| `ClientModel.GroupOperationsPostOneMessage` | BroadcastClient.cs:137-161 | `JoinGroup(g)`/`LeaveGroup(g)` each post one request to `api/groupaction` with body `{groupAction: "Add"/"Remove", groupName: g}` |
| `ClientModel.SendPostsOneEnvelope` | BroadcastClient.cs:94-106 | `Send(m)` posts one request to `api/broadcast` whose body is `{msg: m, fromUser: id, toUser: "", toGroupName: ""}` |
| `Client.BroadcastClient.constructor` | BroadcastClient.cs:35-44 | the two-argument constructor stores the normalised URL and the id and registers the `x-ms-signalr-userid` header |
| `Client.BroadcastClient.WithDefaultUserId` | BroadcastClient.cs:30-33 | the one-argument constructor behaves as the other with the all-zero GUID as id |
| `Client.BroadcastClient.Start` | BroadcastClient.cs:61-92 | the new state is `StartStep` of the old |
| `Client.BroadcastClient.OnClosed` | BroadcastClient.cs:78-82 | the returned delay is a multiple of 1000 ms in `[0, 4000]` and the new state is `ClosedStep` of the old |
| `Client.BroadcastClient.OnNewMessage` | BroadcastClient.cs:85-89 | the new state is `ReceiveStep` of the old |
| `Client.BroadcastClient.SetOnMessage` | BroadcastClient.cs:28 | the new state is `SetOnMessageStep` of the old |
| `Client.BroadcastClient.Send` | BroadcastClient.cs:94-106 | the new state is `SendStep` of the old |
| `Client.BroadcastClient.SendToGroup` | BroadcastClient.cs:108-120 | the new state is `SendToGroupStep` of the old |
| `Client.BroadcastClient.SendToUser` | BroadcastClient.cs:122-134 | the new state is `SendToUserStep` of the old |
| `Client.BroadcastClient.JoinGroup` | BroadcastClient.cs:137-148 | the new state is `JoinGroupStep` of the old |
| `Client.BroadcastClient.LeaveGroup` | BroadcastClient.cs:150-161 | the new state is `LeaveGroupStep` of the old |

## Left out

- HTTP traffic (`GetAsync`, `PostAsync`, reading content, status codes) is foreign I/O. A
  request is only an entry in the `requests` log. Responses to posts are discarded by the
  source and the response status is never checked. A `PostAsync` that throws escapes the
  `async void` publish or group method (see the exceptions bullet below).
- The SignalR library (connection builder, `StartAsync`, event wiring) is a library transport.
  The model keeps only its effects on the stored connection. The outcome of each start is a
  parameter.
- Newtonsoft JSON text serialisation is a third-party library. JSON is an abstract tree.
  - The library's coercions are not modelled: numbers or booleans read into string
    properties, and case-insensitive or integer enum reading. Such values are treated as
    malformed.
  - The library binds member names case-insensitively after trying an exact match. So a
    member `FromUser` or a key `JM` fills that property in the source. `DecodeWrapper`,
    `BroadcastMessages.Decode` and `GroupActions.Decode` match names exactly and treat such
    members as unknown. For `BroadcastMessages.DecodeIgnoresUnknownKeys` and
    `Envelopes.DecodeWrapperIgnoresUnknownKeys`, "unknown" means unknown under exact
    matching. Keys that differ from a known key only in letter case are not covered.
  - An absent `msg` member is read as JSON null. This matches `default(T)` for
    reference-type payloads but not for value types.
- Concurrency and timing are left out, because the model is sequential:
  - `async void`, and the race in which two overlapping `Start` calls both pass the guard.
  - The real duration of `Task.Delay`.
  - The `Random` generator, whose draw is a nondeterministic choice in `[0, 5)`.
  - Exceptions escaping `async void` methods. A failed negotiate GET, an unusable reply
    (BroadcastClient.cs:54-56, 71), a failing initial `StartAsync` (line 91) and a throwing
    `PostAsync` (lines 105, 119, 133, 147, 160) all end the method with an exception. .NET rethrows it on the captured synchronisation context. A host
    without one, such as the console sample, terminates. The model carries on as if the host
    survived: a `None` reply and `transportStarted == false` stand for those exceptions. The
    lemma `ClientModel.StartTwiceAfterFailedNegotiation` describes a later call, so it holds
    only in a host that survives. So does `ClientModel.RunAfterFailedStart` when the start that
    failed is the initial one. When it is a restart, that lemma holds in every host. The
    `Closed` handler is a `Func<Exception, Task>`, not an `async void` method. The library
    awaits its `Task` and logs a failed restart, and nothing reaches a synchronisation context.
- A negotiate reply whose `Url` is null or not a valid URI is folded into the `None` reply,
  because the connection builder throws and `connection` stays null. A reply with a null
  `AccessToken` still builds and assigns the connection, and only its `StartAsync` fails. It
  is modelled as a `Some` reply with `transportStarted == false`. The model does not derive
  that outcome from the token. The caller of `Start` chooses it.
- Null arguments are not modelled: a `null` base URL (which throws a NullReferenceException
  in `urlEndsWithSlash`), user id, group name or user. Arguments are non-null strings, while
  record properties are nullable.
- `DefaultRequestHeaders.Add` (BroadcastClient.cs:40) rejects a header value that is not a valid
  header, such as a `userId` containing a line break, with a FormatException. The constructors
  accept every `userId`.
- `EndsWith("/")` in .NET compares culture-sensitively. The model compares the last character
  ordinally.
- `SignalRConnectionInfo` is a plain two-field record (`ConnectionInfo`) with no behaviour of
  its own.
- The self-message filter (`FilterOwnMessages`) and an `IsConnected` property are not defined
  in `BroadcastClient.cs`. They are not modelled.
- The sample applications (UI layout, configuration loading, console loop) are not part of
  this model.
