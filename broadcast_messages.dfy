/** The four-field publish envelope with short JSON keys. */
module BroadcastMessages {
  import opened Wrappers
  import opened Json

  const JsonMessageKey: string := "jm"
  const FromUserKey: string := "fu"
  const ToUserKey: string := "tu"
  const ToGroupNameKey: string := "gn"

  /** The keys the four properties are bound to. */
  const Keys: set<string> := {JsonMessageKey, FromUserKey, ToUserKey, ToGroupNameKey}

  datatype BroadcastMessage = BroadcastMessage(
    jsonmessage: NullableString,
    fromUser: NullableString,
    toUser: NullableString,
    toGroupName: NullableString)

  /** A freshly constructed message: the two targets start empty, the
      payload and the sender have no initialiser and start null. */
  function Fresh(): (m: BroadcastMessage)
    ensures m.toUser == Some("") && m.toGroupName == Some("")
    ensures m.jsonmessage.None? && m.fromUser.None?
  {
    BroadcastMessage(None, None, Some(""), Some(""))
  }

  /** Serialises a message as a key-to-value map; the four keys are
      distinct, so no property's value overwrites another's. */
  function Encode(m: BroadcastMessage): (members: map<string, Json>)
    ensures members.Keys == Keys && |members| == 4
    ensures members[JsonMessageKey] == FromNullable(m.jsonmessage)
    ensures members[FromUserKey] == FromNullable(m.fromUser)
    ensures members[ToUserKey] == FromNullable(m.toUser)
    ensures members[ToGroupNameKey] == FromNullable(m.toGroupName)
    ensures Decode(members) == Some(m)
  {
    map[JsonMessageKey := FromNullable(m.jsonmessage),
        FromUserKey := FromNullable(m.fromUser),
        ToUserKey := FromNullable(m.toUser),
        ToGroupNameKey := FromNullable(m.toGroupName)]
  }

  /** Binds the four keys onto a freshly constructed message: an absent key
      keeps that property's initial value, other keys are ignored, and a
      present key whose value is not a string or null makes it malformed. */
  function Decode(members: map<string, Json>): (r: Option<BroadcastMessage>)
    ensures r.Some? <==>
      && (JsonMessageKey in members ==> ToNullable(members[JsonMessageKey]).Some?)
      && (FromUserKey in members ==> ToNullable(members[FromUserKey]).Some?)
      && (ToUserKey in members ==> ToNullable(members[ToUserKey]).Some?)
      && (ToGroupNameKey in members ==> ToNullable(members[ToGroupNameKey]).Some?)
    ensures r.Some? && JsonMessageKey in members ==> FromNullable(r.value.jsonmessage) == members[JsonMessageKey]
    ensures r.Some? && FromUserKey in members ==> FromNullable(r.value.fromUser) == members[FromUserKey]
    ensures r.Some? && ToUserKey in members ==> FromNullable(r.value.toUser) == members[ToUserKey]
    ensures r.Some? && ToGroupNameKey in members ==> FromNullable(r.value.toGroupName) == members[ToGroupNameKey]
    ensures r.Some? && JsonMessageKey !in members ==> r.value.jsonmessage.None?
    ensures r.Some? && FromUserKey !in members ==> r.value.fromUser.None?
    ensures r.Some? && ToUserKey !in members ==> r.value.toUser == Some("")
    ensures r.Some? && ToGroupNameKey !in members ==> r.value.toGroupName == Some("")
  {
    var initial := Fresh();
    var jm := ReadString(members, JsonMessageKey, initial.jsonmessage);
    var fu := ReadString(members, FromUserKey, initial.fromUser);
    var tu := ReadString(members, ToUserKey, initial.toUser);
    var gn := ReadString(members, ToGroupNameKey, initial.toGroupName);
    if jm.Some? && fu.Some? && tu.Some? && gn.Some? then
      Some(BroadcastMessage(jm.value, fu.value, tu.value, gn.value))
    else
      None
  }

  /** Decoding is lenient to members it does not know. */
  lemma DecodeIgnoresUnknownKeys(members: map<string, Json>, key: string, value: Json)
    requires key !in Keys
    ensures Decode(members[key := value]) == Decode(members)
  {
  }

  /** An object holding only the sender's two keys decodes to the message a
      sender builds by setting the two properties that have no default. */
  lemma DecodeSenderOnly(jsonmessage: string, fromUser: string)
    ensures Decode(map[JsonMessageKey := JString(jsonmessage), FromUserKey := JString(fromUser)])
         == Some(Fresh().(jsonmessage := Some(jsonmessage), fromUser := Some(fromUser)))
  {
  }
}
