/** The routing envelope the client publishes and receives: the payload under
    `msg` and three string properties under their own names. */
module Envelopes {
  import opened Wrappers
  import opened Json

  datatype MessageWrapper<T> = MessageWrapper(
    msg: T,
    toGroupName: NullableString,
    toUser: NullableString,
    fromUser: NullableString)

  /** The envelope `Send` posts: from the client, to no user and no group. */
  function BroadcastEnvelope<T>(userId: string, message: T): (w: MessageWrapper<T>)
    ensures w.fromUser == Some(userId) && w.msg == message
    ensures w.toUser == Some("") && w.toGroupName == Some("")
  {
    MessageWrapper(message, Some(""), Some(""), Some(userId))
  }

  /** The envelope `SendToGroup` posts: only the group target carries the
      argument, so an empty group name degenerates to a plain broadcast. */
  function GroupEnvelope<T>(userId: string, message: T, groupName: string): (w: MessageWrapper<T>)
    ensures w.fromUser == Some(userId) && w.msg == message
    ensures w.toGroupName == Some(groupName) && w.toUser == Some("")
    ensures w == BroadcastEnvelope(userId, message) <==> groupName == ""
  {
    MessageWrapper(message, Some(groupName), Some(""), Some(userId))
  }

  /** The envelope `SendToUser` posts: only the user target carries the argument. */
  function UserEnvelope<T>(userId: string, message: T, user: string): (w: MessageWrapper<T>)
    ensures w.fromUser == Some(userId) && w.msg == message
    ensures w.toUser == Some(user) && w.toGroupName == Some("")
    ensures w == BroadcastEnvelope(userId, message) <==> user == ""
  {
    MessageWrapper(message, Some(""), Some(user), Some(userId))
  }

  /** A group envelope and a user envelope coincide only when both targets are empty. */
  lemma TargetedEnvelopesDiffer<T>(userId: string, message: T, groupName: string, user: string)
    ensures GroupEnvelope(userId, message, groupName) == UserEnvelope(userId, message, user)
        <==> groupName == "" && user == ""
  {
  }

  const MsgKey: string := "msg"
  const ToGroupNameKey: string := "toGroupName"
  const ToUserKey: string := "toUser"
  const FromUserKey: string := "fromUser"

  /** Serialises an envelope under default member naming; the payload is
      serialised by `encodePayload`, which stands for the JSON library's
      treatment of the payload type. */
  function EncodeWrapper<T>(w: MessageWrapper<T>, encodePayload: T -> Json): (j: Json)
    ensures j.JObject? && j.members.Keys == {MsgKey, ToGroupNameKey, ToUserKey, FromUserKey}
    ensures j.members[MsgKey] == encodePayload(w.msg)
    ensures j.members[FromUserKey] == FromNullable(w.fromUser)
    ensures j.members[ToUserKey] == FromNullable(w.toUser)
    ensures j.members[ToGroupNameKey] == FromNullable(w.toGroupName)
  {
    JObject(map[MsgKey := encodePayload(w.msg),
                ToGroupNameKey := FromNullable(w.toGroupName),
                ToUserKey := FromNullable(w.toUser),
                FromUserKey := FromNullable(w.fromUser)])
  }

  /** Reads an inbound frame. JSON null (the library yields a null wrapper,
      whose `msg` cannot be read) and any non-object are not envelopes; an
      absent string member stays null and an absent payload is read as null. */
  function DecodeWrapper<T>(j: Json, decodePayload: Json -> Option<T>): (r: Option<MessageWrapper<T>>)
    ensures !j.JObject? ==> r.None?
    ensures j.JObject? ==> (r.Some? <==>
      && decodePayload(if MsgKey in j.members then j.members[MsgKey] else JNull).Some?
      && (ToGroupNameKey in j.members ==> ToNullable(j.members[ToGroupNameKey]).Some?)
      && (ToUserKey in j.members ==> ToNullable(j.members[ToUserKey]).Some?)
      && (FromUserKey in j.members ==> ToNullable(j.members[FromUserKey]).Some?))
    ensures r.Some? ==> decodePayload(if MsgKey in j.members then j.members[MsgKey] else JNull) == Some(r.value.msg)
    ensures r.Some? && FromUserKey in j.members ==> FromNullable(r.value.fromUser) == j.members[FromUserKey]
    ensures r.Some? && FromUserKey !in j.members ==> r.value.fromUser.None?
    ensures r.Some? && ToUserKey in j.members ==> FromNullable(r.value.toUser) == j.members[ToUserKey]
    ensures r.Some? && ToUserKey !in j.members ==> r.value.toUser.None?
    ensures r.Some? && ToGroupNameKey in j.members ==> FromNullable(r.value.toGroupName) == j.members[ToGroupNameKey]
    ensures r.Some? && ToGroupNameKey !in j.members ==> r.value.toGroupName.None?
  {
    if !j.JObject? then None
    else
      var m := j.members;
      var payload := decodePayload(if MsgKey in m then m[MsgKey] else JNull);
      var toGroupName := ReadString(m, ToGroupNameKey, None);
      var toUser := ReadString(m, ToUserKey, None);
      var fromUser := ReadString(m, FromUserKey, None);
      if payload.Some? && toGroupName.Some? && toUser.Some? && fromUser.Some? then
        Some(MessageWrapper(payload.value, toGroupName.value, toUser.value, fromUser.value))
      else
        None
  }

  /** A receiver whose payload codec reads back what the sender's wrote
      recovers the whole envelope. */
  lemma WrapperRoundTrip<T>(w: MessageWrapper<T>, encodePayload: T -> Json, decodePayload: Json -> Option<T>)
    requires decodePayload(encodePayload(w.msg)) == Some(w.msg)
    ensures DecodeWrapper(EncodeWrapper(w, encodePayload), decodePayload) == Some(w)
  {
  }

  /** Reading a frame is lenient to members other than the four it binds. */
  lemma DecodeWrapperIgnoresUnknownKeys<T>(members: map<string, Json>, key: string, value: Json,
                                           decodePayload: Json -> Option<T>)
    requires key !in {MsgKey, ToGroupNameKey, ToUserKey, FromUserKey}
    ensures DecodeWrapper(JObject(members[key := value]), decodePayload)
         == DecodeWrapper(JObject(members), decodePayload)
  {
  }
}
