/** The broadcast client's state as a value, one step function per public
    operation or transport event, and what sequences of them preserve. */
module ClientModel {
  import opened Wrappers
  import opened Json
  import opened Envelopes
  import opened GroupActions
  import Endpoints

  /** The header every control-plane request carries the identity in. */
  const UserIdHeader: string := "x-ms-signalr-userid"

  /** The identity a client constructed without one gets: the default (not a
      newly generated) GUID, formatted as 32 hex digits in groups 8-4-4-4-12. */
  function EmptyGuid(): (id: string)
    ensures |id| == 36
    ensures forall i :: 0 <= i < |id| ==>
      id[i] == (if i == 8 || i == 13 || i == 18 || i == 23 then '-' else '0')
  {
    "00000000-0000-0000-0000-000000000000"
  }

  datatype Header = Header(name: string, value: string)

  /** What the negotiate endpoint returns: where to connect, and the token to present. */
  datatype ConnectionInfo = ConnectionInfo(url: string, accessToken: string)

  /** A built hub connection: the connection info its token provider captured,
      whether its transport is up, and how often it has been started. */
  datatype HubConnection = HubConnection(info: ConnectionInfo, running: bool, starts: nat)

  datatype Body<T> = Publish(envelope: MessageWrapper<T>) | Membership(message: GroupActionMessage)

  datatype Request<T> = Get(url: string) | Post(url: string, body: Body<T>)

  /** One invocation of the message callback, with its two arguments. */
  datatype Delivery<T> = Delivery(payload: T, info: MessageWrapper<T>)

  /** The client's fields (`connection` is null while `None`, `hasOnMessage`
      says whether a callback is registered), the requests it has issued and
      the callback invocations it has made. */
  datatype ClientState<T> = ClientState(
    baseAzureFunctionUrl: string,
    userId: string,
    headers: seq<Header>,
    connection: Option<HubConnection>,
    hasOnMessage: bool,
    requests: seq<Request<T>>,
    delivered: seq<Delivery<T>>)

  /** The state a constructor leaves. */
  function Initial<T>(azureFunctionUrl: string, userId: string): (s: ClientState<T>)
    ensures s.baseAzureFunctionUrl == Endpoints.UrlEndsWithSlash(azureFunctionUrl)
    ensures Endpoints.EndsWithSlash(s.baseAzureFunctionUrl) && azureFunctionUrl <= s.baseAzureFunctionUrl
    ensures s.userId == userId && s.headers == [Header(UserIdHeader, userId)]
    ensures s.connection.None? && !s.hasOnMessage && s.requests == [] && s.delivered == []
  {
    ClientState(Endpoints.UrlEndsWithSlash(azureFunctionUrl), userId, [Header(UserIdHeader, userId)], None, false, [], [])
  }

  /** The fields no operation touches. */
  predicate SameIdentity<T>(s: ClientState<T>, t: ClientState<T>) {
    t.baseAzureFunctionUrl == s.baseAzureFunctionUrl && t.userId == s.userId && t.headers == s.headers
  }

  /** `Start`: once a connection exists nothing happens; otherwise the client
      negotiates, and when that yields connection info it builds a connection
      with that info and starts it. `reply` is `None` when the negotiate call
      or the reading of its body fails, which leaves the connection null. */
  function StartStep<T>(s: ClientState<T>, reply: Option<ConnectionInfo>, transportStarted: bool): (t: ClientState<T>)
    ensures s.connection.Some? ==> t == s
    ensures s.connection.None? ==> t.requests == s.requests + [Get(Endpoints.Url(s.baseAzureFunctionUrl, Endpoints.Negotiate))]
    ensures s.connection.None? ==> (t.connection.Some? <==> reply.Some?)
    ensures s.connection.None? && reply.Some? ==>
      t.connection == Some(HubConnection(reply.value, transportStarted, 1))
    ensures SameIdentity(s, t) && t.hasOnMessage == s.hasOnMessage && t.delivered == s.delivered
  {
    if s.connection.Some? then s
    else
      var negotiated := s.(requests := s.requests + [Get(Endpoints.Url(s.baseAzureFunctionUrl, Endpoints.Negotiate))]);
      match reply
      case None => negotiated
      case Some(info) => negotiated.(connection := Some(HubConnection(info, transportStarted, 1)))
  }

  /** The delay before a reconnect, for a draw of `Random.Next(0, 5)`. */
  function ReconnectDelay(draw: int): (ms: int)
    requires 0 <= draw < 5
    ensures 0 <= ms <= 4000 && ms % 1000 == 0 && ms / 1000 == draw
  {
    draw * 1000
  }

  /** The `Closed` handler, which exists only on a built connection and fires
      only when a running one closes: it restarts that same connection, whose
      token provider still returns the captured token, without negotiating.
      `restarted` says whether that restart succeeds. */
  function ClosedStep<T>(s: ClientState<T>, restarted: bool): (t: ClientState<T>)
    ensures t.requests == s.requests && t.delivered == s.delivered
    ensures t.connection.Some? <==> s.connection.Some?
    ensures t.connection.Some? ==> t.connection.value.info == s.connection.value.info
    ensures s.connection.Some? && s.connection.value.running ==>
      t.connection.value.running == restarted && t.connection.value.starts == s.connection.value.starts + 1
    ensures !(s.connection.Some? && s.connection.value.running) ==> t == s
    ensures SameIdentity(s, t) && t.hasOnMessage == s.hasOnMessage
  {
    match s.connection
    case Some(h) =>
      if h.running then s.(connection := Some(h.(running := restarted, starts := h.starts + 1))) else s
    case None => s
  }

  /** The `newMessage` handler, which receives frames only on a running
      connection: the frame is read as an envelope and, when a callback is
      registered, it is invoked once with the envelope's payload and the
      envelope. A frame that is not an envelope reaches no callback. */
  function ReceiveStep<T>(s: ClientState<T>, frame: Json, decodePayload: Json -> Option<T>): (t: ClientState<T>)
    ensures t.requests == s.requests && t.connection == s.connection && t.hasOnMessage == s.hasOnMessage
    ensures !s.hasOnMessage ==> t.delivered == s.delivered
    ensures !(s.connection.Some? && s.connection.value.running) ==> t == s
    ensures DecodeWrapper(frame, decodePayload).None? ==> t.delivered == s.delivered
    ensures (s.hasOnMessage && s.connection.Some? && s.connection.value.running
             && DecodeWrapper(frame, decodePayload).Some?) ==>
      var w := DecodeWrapper(frame, decodePayload).value;
      t.delivered == s.delivered + [Delivery(w.msg, w)]
    ensures SameIdentity(s, t)
  {
    if s.connection.Some? && s.connection.value.running && s.hasOnMessage then
      match DecodeWrapper(frame, decodePayload)
      case Some(w) => s.(delivered := s.delivered + [Delivery(w.msg, w)])
      case None => s
    else s
  }

  /** Assigning the public `onMessage` field (registered or null). */
  function SetOnMessageStep<T>(s: ClientState<T>, registered: bool): (t: ClientState<T>)
    ensures t.hasOnMessage == registered
    ensures t.(hasOnMessage := s.hasOnMessage) == s
  {
    s.(hasOnMessage := registered)
  }

  /** Posting `body` to operation `api`: one request appended, nothing else changes. */
  function PostStep<T>(s: ClientState<T>, api: Endpoints.Api, body: Body<T>): (t: ClientState<T>)
    ensures t.requests == s.requests + [Post(Endpoints.Url(s.baseAzureFunctionUrl, api), body)]
    ensures t.(requests := s.requests) == s
  {
    s.(requests := s.requests + [Post(Endpoints.Url(s.baseAzureFunctionUrl, api), body)])
  }

  /** Publishing a message to everyone: one POST of the broadcast envelope to the broadcast endpoint.
      The connection and everything else are left as they were. */
  function SendStep<T>(s: ClientState<T>, message: T): (t: ClientState<T>)
    ensures t.requests == s.requests + [Post(Endpoints.Url(s.baseAzureFunctionUrl, Endpoints.Broadcast), Publish(BroadcastEnvelope(s.userId, message)))]
    ensures t.(requests := s.requests) == s
  {
    PostStep(s, Endpoints.Broadcast, Publish(BroadcastEnvelope(s.userId, message)))
  }

  /** Publishing to a group: one POST of the group envelope to the broadcast endpoint.
      The connection and everything else are left as they were. */
  function SendToGroupStep<T>(s: ClientState<T>, message: T, groupName: string): (t: ClientState<T>)
    ensures t.requests == s.requests + [Post(Endpoints.Url(s.baseAzureFunctionUrl, Endpoints.Broadcast), Publish(GroupEnvelope(s.userId, message, groupName)))]
    ensures t.(requests := s.requests) == s
  {
    PostStep(s, Endpoints.Broadcast, Publish(GroupEnvelope(s.userId, message, groupName)))
  }

  /** Publishing to one user: one POST of the user envelope to the broadcast endpoint.
      The connection and everything else are left as they were. */
  function SendToUserStep<T>(s: ClientState<T>, message: T, user: string): (t: ClientState<T>)
    ensures t.requests == s.requests + [Post(Endpoints.Url(s.baseAzureFunctionUrl, Endpoints.Broadcast), Publish(UserEnvelope(s.userId, message, user)))]
    ensures t.(requests := s.requests) == s
  {
    PostStep(s, Endpoints.Broadcast, Publish(UserEnvelope(s.userId, message, user)))
  }

  /** Joining a group: one POST of an `Add` message to the group-action endpoint.
      The connection and everything else are left as they were. */
  function JoinGroupStep<T>(s: ClientState<T>, groupName: string): (t: ClientState<T>)
    ensures t.requests == s.requests + [Post(Endpoints.Url(s.baseAzureFunctionUrl, Endpoints.GroupAction), Membership(GroupActionMessage(Add, Some(groupName))))]
    ensures t.(requests := s.requests) == s
  {
    PostStep(s, Endpoints.GroupAction, Membership(GroupActionMessage(Add, Some(groupName))))
  }

  /** Leaving a group: one POST of a `Remove` message to the group-action endpoint.
      The connection and everything else are left as they were. */
  function LeaveGroupStep<T>(s: ClientState<T>, groupName: string): (t: ClientState<T>)
    ensures t.requests == s.requests + [Post(Endpoints.Url(s.baseAzureFunctionUrl, Endpoints.GroupAction), Membership(GroupActionMessage(Remove, Some(groupName))))]
    ensures t.(requests := s.requests) == s
  {
    PostStep(s, Endpoints.GroupAction, Membership(GroupActionMessage(Remove, Some(groupName))))
  }

  /** Everything that can happen to a client, in sequential use. */
  datatype Event<T> =
    | Start(reply: Option<ConnectionInfo>, transportStarted: bool)
    | Closed(restarted: bool)
    | NewMessage(frame: Json)
    | SetOnMessage(registered: bool)
    | Send(message: T)
    | SendToGroup(message: T, groupName: string)
    | SendToUser(message: T, user: string)
    | JoinGroup(groupName: string)
    | LeaveGroup(groupName: string)

  function Step<T>(s: ClientState<T>, e: Event<T>, decodePayload: Json -> Option<T>): (t: ClientState<T>) {
    match e
    case Start(reply, transportStarted) => StartStep(s, reply, transportStarted)
    case Closed(restarted) => ClosedStep(s, restarted)
    case NewMessage(frame) => ReceiveStep(s, frame, decodePayload)
    case SetOnMessage(registered) => SetOnMessageStep(s, registered)
    case Send(message) => SendStep(s, message)
    case SendToGroup(message, groupName) => SendToGroupStep(s, message, groupName)
    case SendToUser(message, user) => SendToUserStep(s, message, user)
    case JoinGroup(groupName) => JoinGroupStep(s, groupName)
    case LeaveGroup(groupName) => LeaveGroupStep(s, groupName)
  }

  /** The state after the events, applied in order. */
  function Run<T>(s: ClientState<T>, events: seq<Event<T>>, decodePayload: Json -> Option<T>): (t: ClientState<T>)
    decreases |events|
  {
    if events == [] then s
    else Step(Run(s, events[..|events| - 1], decodePayload), events[|events| - 1], decodePayload)
  }

  /** The POST an event issues, which depends only on the client's identity,
      never on its connection: publishing works whether or not it is started. */
  function ExpectedPost<T>(baseAzureFunctionUrl: string, userId: string, e: Event<T>): (posts: seq<Request<T>>) {
    match e
    case Send(m) =>
      [Post(Endpoints.Url(baseAzureFunctionUrl, Endpoints.Broadcast), Publish(BroadcastEnvelope(userId, m)))]
    case SendToGroup(m, g) =>
      [Post(Endpoints.Url(baseAzureFunctionUrl, Endpoints.Broadcast), Publish(GroupEnvelope(userId, m, g)))]
    case SendToUser(m, u) =>
      [Post(Endpoints.Url(baseAzureFunctionUrl, Endpoints.Broadcast), Publish(UserEnvelope(userId, m, u)))]
    case JoinGroup(g) =>
      [Post(Endpoints.Url(baseAzureFunctionUrl, Endpoints.GroupAction), Membership(GroupActionMessage(Add, Some(g))))]
    case LeaveGroup(g) =>
      [Post(Endpoints.Url(baseAzureFunctionUrl, Endpoints.GroupAction), Membership(GroupActionMessage(Remove, Some(g))))]
    case _ => []
  }

  function ExpectedPosts<T>(baseAzureFunctionUrl: string, userId: string, events: seq<Event<T>>): (posts: seq<Request<T>>)
    decreases |events|
  {
    if events == [] then []
    else
      ExpectedPosts(baseAzureFunctionUrl, userId, events[..|events| - 1])
      + ExpectedPost(baseAzureFunctionUrl, userId, events[|events| - 1])
  }

  /** The POST requests of a log, in order. */
  function Posts<T>(requests: seq<Request<T>>): (posts: seq<Request<T>>)
    decreases |requests|
  {
    if requests == [] then []
    else
      Posts(requests[..|requests| - 1])
      + (if requests[|requests| - 1].Post? then [requests[|requests| - 1]] else [])
  }

  /** The number of negotiate calls in a log. */
  function Negotiations<T>(requests: seq<Request<T>>): (n: nat)
    decreases |requests|
  {
    if requests == [] then 0
    else Negotiations(requests[..|requests| - 1]) + (if requests[|requests| - 1].Get? then 1 else 0)
  }

  /** The number of inbound frames among the events. */
  function Frames<T>(events: seq<Event<T>>): (n: nat)
    decreases |events|
  {
    if events == [] then 0
    else Frames(events[..|events| - 1]) + (if events[|events| - 1].NewMessage? then 1 else 0)
  }

  /** Every callback invocation was passed the envelope's own payload. */
  ghost predicate DeliveriesConsistent<T>(delivered: seq<Delivery<T>>) {
    forall i :: 0 <= i < |delivered| ==> delivered[i].payload == delivered[i].info.msg
  }

  lemma LogAppend<T>(requests: seq<Request<T>>, r: Request<T>)
    ensures Posts(requests + [r]) == Posts(requests) + (if r.Post? then [r] else [])
    ensures Negotiations(requests + [r]) == Negotiations(requests) + (if r.Get? then 1 else 0)
  {
  }

  /** No operation changes the base URL, the identity or the default headers. */
  lemma {:induction false} RunKeepsIdentity<T>(s: ClientState<T>, events: seq<Event<T>>, decodePayload: Json -> Option<T>)
    ensures SameIdentity(s, Run(s, events, decodePayload))
    decreases |events|
  {
    if events != [] {
      RunKeepsIdentity(s, events[..|events| - 1], decodePayload);
    }
  }

  /** One event adds to the POST log exactly the request it is expected to issue. */
  lemma StepPosts<T>(t: ClientState<T>, e: Event<T>, decodePayload: Json -> Option<T>)
    ensures Posts(Step(t, e, decodePayload).requests)
         == Posts(t.requests) + ExpectedPost(t.baseAzureFunctionUrl, t.userId, e)
  {
    match e
    case Start(reply, transportStarted) =>
      if t.connection.None? {
        LogAppend(t.requests, Get(Endpoints.Url(t.baseAzureFunctionUrl, Endpoints.Negotiate)));
      }
    case Send(m) =>
      LogAppend(t.requests, ExpectedPost(t.baseAzureFunctionUrl, t.userId, e)[0]);
    case SendToGroup(m, g) =>
      LogAppend(t.requests, ExpectedPost(t.baseAzureFunctionUrl, t.userId, e)[0]);
    case SendToUser(m, u) =>
      LogAppend(t.requests, ExpectedPost(t.baseAzureFunctionUrl, t.userId, e)[0]);
    case JoinGroup(g) =>
      LogAppend(t.requests, ExpectedPost(t.baseAzureFunctionUrl, t.userId, e)[0]);
    case LeaveGroup(g) =>
      LogAppend(t.requests, ExpectedPost(t.baseAzureFunctionUrl, t.userId, e)[0]);
    case _ =>
  }

  /** The POSTs a client issues are exactly one per publish or group
      operation, in order, each determined by the operation and the identity. */
  lemma {:induction false} RunPostsFollowEvents<T>(s: ClientState<T>, events: seq<Event<T>>, decodePayload: Json -> Option<T>)
    ensures Posts(Run(s, events, decodePayload).requests)
         == Posts(s.requests) + ExpectedPosts(s.baseAzureFunctionUrl, s.userId, events)
    decreases |events|
  {
    if events != [] {
      var prefix := events[..|events| - 1];
      var e := events[|events| - 1];
      var t := Run(s, prefix, decodePayload);
      RunPostsFollowEvents(s, prefix, decodePayload);
      RunKeepsIdentity(s, prefix, decodePayload);
      StepPosts(t, e, decodePayload);
      assert Run(s, events, decodePayload) == Step(t, e, decodePayload);
      assert ExpectedPosts(s.baseAzureFunctionUrl, s.userId, events)
          == ExpectedPosts(s.baseAzureFunctionUrl, s.userId, prefix) + ExpectedPost(s.baseAzureFunctionUrl, s.userId, e);
    }
  }

  /** Once a connection exists it stays, keeps the captured connection info
      (the token is reused on reconnect), and no further negotiate call is
      made: neither `Start` nor the reconnect handler negotiates again. */
  lemma {:induction false} RunAfterConnect<T>(s: ClientState<T>, events: seq<Event<T>>, decodePayload: Json -> Option<T>)
    requires s.connection.Some?
    ensures var t := Run(s, events, decodePayload);
      && t.connection.Some?
      && t.connection.value.info == s.connection.value.info
      && t.connection.value.starts >= s.connection.value.starts
      && Negotiations(t.requests) == Negotiations(s.requests)
    decreases |events|
  {
    if events != [] {
      var prefix := events[..|events| - 1];
      var e := events[|events| - 1];
      var t := Run(s, prefix, decodePayload);
      RunAfterConnect(s, prefix, decodePayload);
      match e
      case Start(_, _) =>
      case Closed(_) =>
      case NewMessage(_) =>
      case SetOnMessage(_) =>
      case _ =>
        var p := Step(t, e, decodePayload).requests[|t.requests|];
        assert Step(t, e, decodePayload).requests == t.requests + [p];
        LogAppend(t.requests, p);
    }
  }

  /** A connection whose first start failed is never restarted: `Start` is a
      no-op from then on and `Closed` never fires, so no callback runs again. */
  lemma {:induction false} RunAfterFailedStart<T>(s: ClientState<T>, events: seq<Event<T>>, decodePayload: Json -> Option<T>)
    requires s.connection.Some? && !s.connection.value.running
    ensures var t := Run(s, events, decodePayload);
      t.connection == s.connection && t.delivered == s.delivered
    decreases |events|
  {
    if events != [] {
      RunAfterFailedStart(s, events[..|events| - 1], decodePayload);
    }
  }

  /** The callback log only grows, by at most one invocation per inbound
      frame, and every invocation is passed `(wrapper.msg, wrapper)`. */
  lemma {:induction false} RunDeliveries<T>(s: ClientState<T>, events: seq<Event<T>>, decodePayload: Json -> Option<T>)
    ensures var t := Run(s, events, decodePayload);
      && s.delivered <= t.delivered
      && |t.delivered| <= |s.delivered| + Frames(events)
      && (DeliveriesConsistent(s.delivered) ==> DeliveriesConsistent(t.delivered))
    decreases |events|
  {
    if events != [] {
      RunDeliveries(s, events[..|events| - 1], decodePayload);
    }
  }

  /** `Start` twice in succession, the first negotiation succeeding: one
      negotiate call and one connection, built from the first reply. */
  lemma StartTwice<T>(s: ClientState<T>, reply1: Option<ConnectionInfo>, started1: bool,
                      reply2: Option<ConnectionInfo>, started2: bool)
    requires s.connection.None? && reply1.Some?
    ensures var t := StartStep(StartStep(s, reply1, started1), reply2, started2);
      && Negotiations(t.requests) == Negotiations(s.requests) + 1
      && t.connection == Some(HubConnection(reply1.value, started1, 1))
  {
  }

  /** `Start` twice in succession, the first negotiation failing: the second
      call negotiates again, since the guard tests only for a connection. */
  lemma StartTwiceAfterFailedNegotiation<T>(s: ClientState<T>, reply2: Option<ConnectionInfo>, started1: bool, started2: bool)
    requires s.connection.None?
    ensures var t := StartStep(StartStep(s, None, started1), reply2, started2);
      && Negotiations(t.requests) == Negotiations(s.requests) + 2
      && (t.connection.Some? <==> reply2.Some?)
  {
  }

  /** `JoinGroup(g)` and `LeaveGroup(g)` each issue one POST to the group
      action endpoint whose body carries the action's name and `g`. */
  lemma GroupOperationsPostOneMessage<T>(s: ClientState<T>, groupName: string)
    ensures Endpoints.Url(s.baseAzureFunctionUrl, Endpoints.GroupAction) == s.baseAzureFunctionUrl + "api/groupaction"
    ensures var url := Endpoints.Url(s.baseAzureFunctionUrl, Endpoints.GroupAction);
      && Posts(JoinGroupStep(s, groupName).requests) == Posts(s.requests) + [Post(url, Membership(GroupActionMessage(Add, Some(groupName))))]
      && Posts(LeaveGroupStep(s, groupName).requests) == Posts(s.requests) + [Post(url, Membership(GroupActionMessage(Remove, Some(groupName))))]
    ensures Encode(GroupActionMessage(Add, Some(groupName))).members
         == map[GroupActionKey := JString("Add"), GroupNameKey := JString(groupName)]
    ensures Encode(GroupActionMessage(Remove, Some(groupName))).members
         == map[GroupActionKey := JString("Remove"), GroupNameKey := JString(groupName)]
  {
  }

  /** `Send(m)` issues one POST to the broadcast endpoint whose body, as
      serialised, names the client as sender and targets nobody. */
  lemma SendPostsOneEnvelope<T>(s: ClientState<T>, message: T, encodePayload: T -> Json)
    ensures Endpoints.Url(s.baseAzureFunctionUrl, Endpoints.Broadcast) == s.baseAzureFunctionUrl + "api/broadcast"
    ensures var url := Endpoints.Url(s.baseAzureFunctionUrl, Endpoints.Broadcast);
      Posts(SendStep(s, message).requests) == Posts(s.requests) + [Post(url, Publish(BroadcastEnvelope(s.userId, message)))]
    ensures EncodeWrapper(BroadcastEnvelope(s.userId, message), encodePayload).members
         == map[MsgKey := encodePayload(message), FromUserKey := JString(s.userId),
                ToUserKey := JString(""), ToGroupNameKey := JString("")]
  {
  }
}
