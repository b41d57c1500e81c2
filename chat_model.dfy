/**
 * The server's stored chat: an owner, a title and an ordered list of
 * messages, each a role and a text, with creation and update times.
 * `required` on a string field rejects a missing or empty value; the two
 * timestamps default to the time the record is made, and every save
 * stamps `updatedAt` afresh.
 */
module ChatModel {
  import opened Wrappers

  datatype Role = User | Assistant

  function RoleName(r: Role): string
  {
    match r
    case User => "user"
    case Assistant => "assistant"
  }

  /** The role enum: a role must be one of `user` and `assistant`, and must be present. */
  function ParseRole(s: Option<string>): (r: Option<Role>)
    ensures r.Some? <==> s == Some("user") || s == Some("assistant")
    ensures r.Some? ==> s == Some(RoleName(r.value))
  {
    if s == Some("user") then Some(User)
    else if s == Some("assistant") then Some(Assistant)
    else None
  }

  datatype Message = Message(role: Role, content: string, timestamp: int)

  /** A message as submitted, before the schema checks its fields and fills in defaults. */
  datatype MessageInput = MessageInput(role: Option<string>, content: Option<string>, timestamp: Option<int>)

  /** A required string field holds a non-empty string. */
  predicate Present(s: Option<string>)
  {
    s.Some? && s.value != ""
  }

  /**
   * Casting a submitted message: a role from the enum, a present content,
   * and the timestamp given or else the time of creation.
   */
  function CastMessage(m: MessageInput, now: int): (r: Option<Message>)
    ensures r.Some? <==> ParseRole(m.role).Some? && Present(m.content)
    ensures r.Some? ==> && RoleName(r.value.role) == m.role.value
                        && r.value.content == m.content.value
                        && r.value.timestamp == (if m.timestamp.Some? then m.timestamp.value else now)
  {
    match ParseRole(m.role)
    case None => None
    case Some(role) =>
      if !Present(m.content) then None
      else Some(Message(role, m.content.value, if m.timestamp.Some? then m.timestamp.value else now))
  }

  datatype StoredChat = StoredChat(id: string, user: string, title: string, messages: seq<Message>,
                                   createdAt: int, updatedAt: int)

  /** What the schema accepts: an owner, a title, and every message with content. */
  predicate Valid(c: StoredChat)
  {
    && c.user != ""
    && c.title != ""
    && forall i :: 0 <= i < |c.messages| ==> c.messages[i].content != ""
  }

  /** A stored message as it would be submitted again. */
  function AsInput(m: Message): MessageInput
  {
    MessageInput(Some(RoleName(m.role)), Some(m.content), Some(m.timestamp))
  }

  /** A stored message casts back to itself exactly when its content is not empty. */
  lemma CastRoundTrip(m: Message, now: int)
    ensures CastMessage(AsInput(m), now) == Some(m) <==> m.content != ""
    ensures CastMessage(AsInput(m), now).None? <==> m.content == ""
  {
    assert ParseRole(Some(RoleName(m.role))) == Some(m.role) by {
      match m.role
      case User =>
      case Assistant =>
    }
  }

  /** The schema's rule for the messages of a chat is the rule for one message: each must cast. */
  lemma ValidMessagesCast(c: StoredChat, now: int)
    ensures Valid(c) <==>
      && c.user != "" && c.title != ""
      && forall i :: 0 <= i < |c.messages| ==> CastMessage(AsInput(c.messages[i]), now) == Some(c.messages[i])
  {
    forall i | 0 <= i < |c.messages|
      ensures CastMessage(AsInput(c.messages[i]), now) == Some(c.messages[i]) <==> c.messages[i].content != ""
    {
      CastRoundTrip(c.messages[i], now);
    }
  }

  /** A new record: both timestamps default to the time of creation. */
  function NewChat(id: string, user: string, title: string, messages: seq<Message>, now: int): StoredChat
  {
    StoredChat(id, user, title, messages, now, now)
  }

  /** The pre-save hook: every save sets `updatedAt` to the time of saving. */
  function PreSave(c: StoredChat, now: int): (r: StoredChat)
    ensures r.updatedAt == now
    ensures r.(updatedAt := c.updatedAt) == c
  {
    c.(updatedAt := now)
  }

  /** Saving keeps what makes a record valid: the hook touches only the update time. */
  lemma PreSaveKeepsValid(c: StoredChat, now: int)
    ensures Valid(PreSave(c, now)) <==> Valid(c)
    ensures PreSave(PreSave(c, now), now) == PreSave(c, now)
  {
  }
}
