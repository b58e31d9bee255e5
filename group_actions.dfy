/** The group-membership control message and its action enum. */
module GroupActions {
  import opened Wrappers
  import opened Json

  /** The two membership actions, in declaration order. */
  datatype GroupAction = Add | Remove

  /** The integer each action is declared with. */
  function Ordinal(a: GroupAction): (n: nat)
    ensures n < 2
    ensures (n == 0) == (a == Add) && (n == 1) == (a == Remove)
  {
    match a
    case Add => 0
    case Remove => 1
  }

  /** Reads an action back from its member name; only the exact names parse. */
  function ParseName(s: string): (r: Option<GroupAction>)
    ensures r == Some(Add) <==> s == "Add"
    ensures r == Some(Remove) <==> s == "Remove"
    ensures r.None? <==> s != "Add" && s != "Remove"
  {
    if s == "Add" then Some(Add)
    else if s == "Remove" then Some(Remove)
    else None
  }

  /** The member name of an action, which is what the string-enum converter writes. */
  function Name(a: GroupAction): (s: string)
    ensures ParseName(s) == Some(a)
  {
    match a
    case Add => "Add"
    case Remove => "Remove"
  }

  /** The wire value of an action: its name as a JSON string, never its ordinal. */
  function EncodeAction(a: GroupAction): (j: Json)
    ensures j.JString? && j != JNumber(Ordinal(a))
    ensures DecodeAction(j) == Some(a)
  {
    JString(Name(a))
  }

  /** Reads an action from a JSON value written by `EncodeAction`. */
  function DecodeAction(j: Json): (r: Option<GroupAction>)
    ensures r.Some? ==> j == JString(Name(r.value))
  {
    if j.JString? then ParseName(j.str) else None
  }

  lemma NameInjective(a: GroupAction, b: GroupAction)
    ensures Name(a) == Name(b) <==> a == b
  {
  }

  /** The body of a group-action request. */
  datatype GroupActionMessage = GroupActionMessage(groupAction: GroupAction, groupName: NullableString)

  const GroupActionKey: string := "groupAction"
  const GroupNameKey: string := "groupName"

  /** Serialises a message under its property names. */
  function Encode(m: GroupActionMessage): (j: Json)
    ensures j.JObject? && j.members.Keys == {GroupActionKey, GroupNameKey}
    ensures j.members[GroupActionKey] == JString(Name(m.groupAction))
    ensures j.members[GroupNameKey] == FromNullable(m.groupName)
    ensures Decode(j) == Some(m)
  {
    JObject(map[GroupActionKey := EncodeAction(m.groupAction), GroupNameKey := FromNullable(m.groupName)])
  }

  /** Reads a message: an absent action keeps the enum's default `Add`
      (ordinal 0), an absent name stays null; anything else is malformed. */
  function Decode(j: Json): (r: Option<GroupActionMessage>)
    ensures !j.JObject? ==> r.None?
    ensures j.JObject? ==> (r.Some? <==>
      && (GroupActionKey in j.members ==> DecodeAction(j.members[GroupActionKey]).Some?)
      && (GroupNameKey in j.members ==> ToNullable(j.members[GroupNameKey]).Some?))
    ensures r.Some? && GroupActionKey !in j.members ==> r.value.groupAction == Add
    ensures r.Some? && GroupActionKey in j.members ==> j.members[GroupActionKey] == JString(Name(r.value.groupAction))
    ensures r.Some? && GroupNameKey !in j.members ==> r.value.groupName.None?
    ensures r.Some? && GroupNameKey in j.members ==> j.members[GroupNameKey] == FromNullable(r.value.groupName)
  {
    if !j.JObject? then None
    else
      var action := if GroupActionKey in j.members then DecodeAction(j.members[GroupActionKey]) else Some(Add);
      var name := ReadString(j.members, GroupNameKey, None);
      if action.Some? && name.Some? then Some(GroupActionMessage(action.value, name.value)) else None
  }
}
