/** The broadcast client as an object: its constructors fix the base URL and
    the identity, `Start` tests and assigns the connection, the two handlers
    act on the stored connection, and each publish or group operation issues
    one request. Each method is specified by the step function of the
    `ClientModel` module that describes it. */
module Client {
  import opened Wrappers
  import opened Json
  import opened Envelopes
  import opened GroupActions
  import opened ClientModel
  import Endpoints

  class BroadcastClient<T> {
    const baseAzureFunctionUrl: string
    const userId: string
    /** The HTTP client's default request headers. */
    var defaultRequestHeaders: seq<Header>
    /** The hub connection; `None` while it is null. */
    var connection: Option<HubConnection>
    /** Whether the public `onMessage` callback is set. */
    var hasOnMessage: bool
    /** The HTTP requests issued so far. */
    var requests: seq<Request<T>>
    /** The callback invocations made so far. */
    var delivered: seq<Delivery<T>>

    function State(): (s: ClientState<T>)
      reads this
    {
      ClientState(baseAzureFunctionUrl, userId, defaultRequestHeaders, connection, hasOnMessage, requests, delivered)
    }

    constructor (azureFunctionUrl: string, userId: string)
      ensures State() == Initial(azureFunctionUrl, userId)
      ensures this.baseAzureFunctionUrl == Endpoints.UrlEndsWithSlash(azureFunctionUrl) && this.userId == userId
      ensures defaultRequestHeaders == [Header(UserIdHeader, userId)]
    {
      var base := Endpoints.UrlEndsWithSlash(azureFunctionUrl);
      this.baseAzureFunctionUrl := base;
      this.userId := userId;
      defaultRequestHeaders := [];
      connection := None;
      hasOnMessage := false;
      requests := [];
      delivered := [];
      new;
      defaultRequestHeaders := defaultRequestHeaders + [Header(UserIdHeader, userId)];
      assert defaultRequestHeaders == [Header(UserIdHeader, userId)];
    }

    /** The one-argument constructor: the identity is the empty GUID. */
    constructor WithDefaultUserId(azureFunctionUrl: string)
      ensures State() == Initial(azureFunctionUrl, EmptyGuid())
      ensures this.userId == EmptyGuid()
    {
      var id := EmptyGuid();
      var base := Endpoints.UrlEndsWithSlash(azureFunctionUrl);
      this.baseAzureFunctionUrl := base;
      this.userId := id;
      defaultRequestHeaders := [];
      connection := None;
      hasOnMessage := false;
      requests := [];
      delivered := [];
      new;
      defaultRequestHeaders := defaultRequestHeaders + [Header(UserIdHeader, id)];
      assert defaultRequestHeaders == [Header(UserIdHeader, id)];
    }

    /** `reply` is what the negotiate call yields, `None` when it or the
        reading of its body fails; `transportStarted` is the outcome of
        `StartAsync`. */
    method Start(reply: Option<ConnectionInfo>, transportStarted: bool)
      modifies this
      ensures State() == StartStep(old(State()), reply, transportStarted)
    {
      if connection.Some? {
        return;
      }
      requests := requests + [Get(Endpoints.Url(baseAzureFunctionUrl, Endpoints.Negotiate))];
      if reply.None? {
        return;
      }
      connection := Some(HubConnection(reply.value, false, 0));
      connection := Some(connection.value.(running := transportStarted, starts := connection.value.starts + 1));
    }

    /** The `Closed` handler: waits a random whole number of seconds below
        five, then restarts the stored connection; `restarted` is the
        outcome of that `StartAsync`. */
    method OnClosed(restarted: bool) returns (delayMs: int)
      requires connection.Some? && connection.value.running
      modifies this
      ensures 0 <= delayMs <= 4000 && delayMs % 1000 == 0
      ensures State() == ClosedStep(old(State()), restarted)
    {
      var draw :| 0 <= draw < 5;
      delayMs := ReconnectDelay(draw);
      connection := Some(connection.value.(running := false));
      connection := Some(connection.value.(running := restarted, starts := connection.value.starts + 1));
    }

    /** The `newMessage` handler; `decodePayload` stands for the JSON
        library's reading of the payload type. */
    method OnNewMessage(frame: Json, decodePayload: Json -> Option<T>)
      requires connection.Some? && connection.value.running
      modifies this
      ensures State() == ReceiveStep(old(State()), frame, decodePayload)
    {
      var messageObject := DecodeWrapper(frame, decodePayload);
      if hasOnMessage && messageObject.Some? {
        delivered := delivered + [Delivery(messageObject.value.msg, messageObject.value)];
      }
    }

    method SetOnMessage(registered: bool)
      modifies this
      ensures State() == SetOnMessageStep(old(State()), registered)
    {
      hasOnMessage := registered;
    }

    method Send(message: T)
      modifies this
      ensures State() == SendStep(old(State()), message)
    {
      var url := Endpoints.Url(baseAzureFunctionUrl, Endpoints.Broadcast);
      var wrapped := BroadcastEnvelope(userId, message);
      requests := requests + [Post(url, Publish(wrapped))];
    }

    method SendToGroup(message: T, groupName: string)
      modifies this
      ensures State() == SendToGroupStep(old(State()), message, groupName)
    {
      var url := Endpoints.Url(baseAzureFunctionUrl, Endpoints.Broadcast);
      var wrapped := GroupEnvelope(userId, message, groupName);
      requests := requests + [Post(url, Publish(wrapped))];
    }

    method SendToUser(message: T, user: string)
      modifies this
      ensures State() == SendToUserStep(old(State()), message, user)
    {
      var url := Endpoints.Url(baseAzureFunctionUrl, Endpoints.Broadcast);
      var wrapped := UserEnvelope(userId, message, user);
      requests := requests + [Post(url, Publish(wrapped))];
    }

    method JoinGroup(groupName: string)
      modifies this
      ensures State() == JoinGroupStep(old(State()), groupName)
    {
      var url := Endpoints.Url(baseAzureFunctionUrl, Endpoints.GroupAction);
      var gam := GroupActionMessage(Add, Some(groupName));
      requests := requests + [Post(url, Membership(gam))];
    }

    method LeaveGroup(groupName: string)
      modifies this
      ensures State() == LeaveGroupStep(old(State()), groupName)
    {
      var url := Endpoints.Url(baseAzureFunctionUrl, Endpoints.GroupAction);
      var gam := GroupActionMessage(Remove, Some(groupName));
      requests := requests + [Post(url, Membership(gam))];
    }
  }
}
