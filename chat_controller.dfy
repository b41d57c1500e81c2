/**
 * The server's chat handlers over an in-memory collection. Every handler
 * acts only on the requesting user's chats. A reply comes from a generator
 * that is handed the conversation so far and either answers or fails; it is
 * called before anything is written, so a failed generation changes nothing.
 */
module ChatController {
  import opened Wrappers
  import opened JsArrays
  import opened ChatModel

  /** One turn of the generator's input: a role and a text. */
  datatype Turn = Turn(role: Role, content: string)

  /** The projection of a chat handed back by `getChats`. */
  datatype Summary = Summary(id: string, title: string, updatedAt: int, messages: seq<Message>)

  datatype Response =
    | Created(chat: StoredChat)
    | Sent(chat: StoredChat)
    | Found(chat: StoredChat)
    | Listed(chats: seq<Summary>)
    | NotFound
    | ServerError

  datatype Outcome = Outcome(response: Response, chats: seq<StoredChat>)

  /** `slice(0, 50) + '...'`: the first 50 characters, then an ellipsis, however short the message. */
  function Title(message: string): string
  {
    (if |message| <= 50 then message else message[..50]) + "..."
  }

  /** `chat.messages.map(msg => ({role, content}))`. */
  function Context(ms: seq<Message>): seq<Turn>
  {
    if ms == [] then [] else [Turn(ms[0].role, ms[0].content)] + Context(ms[1..])
  }

  /** The messages the generator sends: the context, then the prompt as the user's turn. */
  function Request(prompt: string, context: seq<Turn>): seq<Turn>
  {
    context + [Turn(User, prompt)]
  }

  predicate IsHexDigit(ch: char)
  {
    '0' <= ch <= '9' || 'a' <= ch <= 'f' || 'A' <= ch <= 'F'
  }

  /**
   * Whether `findOne` can cast a route's `chatId` to an ObjectId: 24
   * hexadecimal digits. Any other id makes the query reject with a cast
   * error, which the handlers' `catch` turns into a server error.
   */
  predicate IsObjectId(id: string)
  {
    |id| == 24 && forall i :: 0 <= i < |id| ==> IsHexDigit(id[i])
  }

  /** `findOne({_id: chatId, user: userId})`: the position of the chat with that id and owner. */
  function FindOwned(chats: seq<StoredChat>, chatId: string, userId: string): (r: Option<nat>)
    ensures r.Some? ==> r.value < |chats| && chats[r.value].id == chatId && chats[r.value].user == userId
    ensures r.None? ==> forall i :: 0 <= i < |chats| ==> !(chats[i].id == chatId && chats[i].user == userId)
  {
    if chats == [] then None
    else if chats[0].id == chatId && chats[0].user == userId then Some(0)
    else match FindOwned(chats[1..], chatId, userId)
      case None => None
      case Some(i) => Some(i + 1)
  }

  predicate HasId(chats: seq<StoredChat>, id: string)
  {
    exists i :: 0 <= i < |chats| && chats[i].id == id
  }

  /**
   * `createChat`: the generator gets the message with no context; the new
   * chat holds the message and the reply, under the requesting user. It is
   * not stored when generation fails, when the schema rejects it, or when
   * its id is taken.
   */
  function CreateChat(chats: seq<StoredChat>, userId: string, message: string,
                      generate: seq<Turn> -> Option<string>, now: int, freshId: string): Outcome
  {
    match generate(Request(message, []))
    case None => Outcome(ServerError, chats)
    case Some(reply) =>
      var chat := PreSave(NewChat(freshId, userId, Title(message),
                                  [Message(User, message, now), Message(Assistant, reply, now)], now), now);
      if !Valid(chat) || HasId(chats, freshId) then Outcome(ServerError, chats)
      else Outcome(Created(chat), chats + [chat])
  }

  /**
   * `sendMessage`: the requester's chat, if any, gets the message and the
   * generated reply appended and is saved; nothing is written unless the
   * id is an ObjectId, the generator answers and the schema accepts the result.
   */
  function SendMessage(chats: seq<StoredChat>, chatId: string, userId: string, message: string,
                       generate: seq<Turn> -> Option<string>, now: int): Outcome
  {
    if !IsObjectId(chatId) then Outcome(ServerError, chats)
    else match FindOwned(chats, chatId, userId)
    case None => Outcome(NotFound, chats)
    case Some(i) =>
      var chat := chats[i];
      match generate(Request(message, Context(chat.messages)))
      case None => Outcome(ServerError, chats)
      case Some(reply) =>
        var updated := PreSave(chat.(messages := chat.messages + [Message(User, message, now),
                                                                Message(Assistant, reply, now)]), now);
        if !Valid(updated) then Outcome(ServerError, chats)
        else Outcome(Sent(updated), chats[i := updated])
  }

  function UpdatedAt(s: Summary): int { s.updatedAt }

  function Summarize(c: StoredChat): Summary
  {
    Summary(c.id, c.title, c.updatedAt, c.messages)
  }

  /** The requester's chats, in collection order, projected. */
  function OwnedSummaries(chats: seq<StoredChat>, userId: string): seq<Summary>
  {
    if chats == [] then []
    else (if chats[0].user == userId then [Summarize(chats[0])] else []) + OwnedSummaries(chats[1..], userId)
  }

  /** `getChats`: the requester's chats, most recently updated first. */
  function GetChats(chats: seq<StoredChat>, userId: string): seq<Summary>
  {
    SortDesc(OwnedSummaries(chats, userId), UpdatedAt)
  }

  /** `getChat`: the chat with that id, if the id is an ObjectId and the requester owns it. */
  function GetChat(chats: seq<StoredChat>, chatId: string, userId: string): Response
  {
    if !IsObjectId(chatId) then ServerError
    else match FindOwned(chats, chatId, userId)
    case None => NotFound
    case Some(i) => Found(chats[i])
  }

  /** The title is the message's first 50 characters and an ellipsis, so it is never empty. */
  lemma TitleShape(message: string)
    ensures var n := if |message| <= 50 then |message| else 50;
      && |Title(message)| == n + 3
      && Title(message)[..n] == message[..n]
      && Title(message)[n..] == "..."
  {
  }

  /** The context keeps every message, in order, as its role and content. */
  lemma {:induction false} ContextProjects(ms: seq<Message>)
    ensures |Context(ms)| == |ms|
    ensures forall i :: 0 <= i < |ms| ==> Context(ms)[i] == Turn(ms[i].role, ms[i].content)
  {
    if ms != [] {
      ContextProjects(ms[1..]);
    }
  }

  /**
   * `createChat` stores exactly one chat, at the end, with the requester as
   * owner, the truncated title, the message and the reply, and both times
   * set to now; when the generator fails, or the message or reply is empty,
   * it stores nothing and answers with a server error.
   */
  lemma CreateChatEffect(chats: seq<StoredChat>, userId: string, message: string,
                         generate: seq<Turn> -> Option<string>, now: int, freshId: string)
    ensures var o := CreateChat(chats, userId, message, generate, now, freshId);
      var reply := generate([Turn(User, message)]);
      && (o.response.Created? <==>
            reply.Some? && userId != "" && message != "" && reply.value != "" && !HasId(chats, freshId))
      && (o.response.Created? ==>
            && o.chats == chats + [o.response.chat]
            && o.response.chat == StoredChat(freshId, userId, Title(message),
                 [Message(User, message, now), Message(Assistant, reply.value, now)], now, now))
      && (!o.response.Created? ==> o.response == ServerError && o.chats == chats)
  {
    assert Request(message, []) == [Turn(User, message)];
    TitleShape(message);
    var reply := generate([Turn(User, message)]);
    if reply.Some? {
      var ms := [Message(User, message, now), Message(Assistant, reply.value, now)];
      var chat := PreSave(NewChat(freshId, userId, Title(message), ms, now), now);
      assert chat == StoredChat(freshId, userId, Title(message), ms, now, now);
      assert Valid(chat) <==> userId != "" && message != "" && reply.value != "" by {
        assert ms[0].content == message && ms[1].content == reply.value;
      }
    }
  }

  /**
   * A chat that is not the requester's is never found: nothing changes, and
   * the answer is 404, or a server error when the id is not an ObjectId.
   */
  lemma SendMessageNotFound(chats: seq<StoredChat>, chatId: string, userId: string, message: string,
                            generate: seq<Turn> -> Option<string>, now: int)
    requires forall i :: 0 <= i < |chats| && chats[i].id == chatId ==> chats[i].user != userId
    ensures SendMessage(chats, chatId, userId, message, generate, now)
      == Outcome(if IsObjectId(chatId) then NotFound else ServerError, chats)
    ensures GetChat(chats, chatId, userId) == if IsObjectId(chatId) then NotFound else ServerError
  {
  }

  /**
   * An id that is not an ObjectId fails the query itself: both handlers answer
   * with a server error and nothing changes, even when a chat carries that id.
   */
  lemma MalformedIdFails(chats: seq<StoredChat>, chatId: string, userId: string, message: string,
                         generate: seq<Turn> -> Option<string>, now: int)
    ensures !IsObjectId(chatId) <==> SendMessage(chats, chatId, userId, message, generate, now).response.ServerError?
                                     && GetChat(chats, chatId, userId).ServerError?
    ensures !IsObjectId(chatId) ==> SendMessage(chats, chatId, userId, message, generate, now).chats == chats
  {
  }

  /**
   * When the requester owns the chat, the generator is handed its messages,
   * in order, as role and content, followed by the new message; if it fails,
   * not even the user's message is stored.
   */
  lemma SendMessageFailure(chats: seq<StoredChat>, chatId: string, userId: string, message: string,
                           generate: seq<Turn> -> Option<string>, now: int)
    requires FindOwned(chats, chatId, userId).Some?
    requires generate(Request(message, Context(chats[FindOwned(chats, chatId, userId).value].messages))).None?
    ensures SendMessage(chats, chatId, userId, message, generate, now) == Outcome(ServerError, chats)
  {
  }

  /**
   * A successful send appends exactly two messages to the requester's chat,
   * the user's then the reply, keeps the earlier ones as a prefix, stamps
   * `updatedAt`, and leaves its id, owner, title and creation time, and
   * every other chat, as they were.
   */
  lemma SendMessageSuccess(chats: seq<StoredChat>, chatId: string, userId: string, message: string,
                           generate: seq<Turn> -> Option<string>, now: int)
    requires SendMessage(chats, chatId, userId, message, generate, now).response.Sent?
    ensures var o := SendMessage(chats, chatId, userId, message, generate, now);
      var i := FindOwned(chats, chatId, userId).value;
      var old_ := chats[i];
      var new_ := o.chats[i];
      && IsObjectId(chatId)
      && |o.chats| == |chats| && o.response.chat == new_
      && new_.id == chatId && new_.user == userId && new_.title == old_.title && new_.createdAt == old_.createdAt
      && new_.updatedAt == now
      && |new_.messages| == |old_.messages| + 2
      && new_.messages[..|old_.messages|] == old_.messages
      && new_.messages[|old_.messages|] == Message(User, message, now)
      && new_.messages[|old_.messages| + 1].role == Assistant
      && Some(new_.messages[|old_.messages| + 1].content) == generate(Request(message, Context(old_.messages)))
      && forall j :: 0 <= j < |chats| && j != i ==> o.chats[j] == chats[j]
  {
    var i := FindOwned(chats, chatId, userId).value;
    var old_ := chats[i];
    var reply := generate(Request(message, Context(old_.messages))).value;
    assert (old_.messages + [Message(User, message, now), Message(Assistant, reply, now)])[..|old_.messages|]
      == old_.messages;
  }

  /** A send by one user never changes a chat owned by another. */
  lemma SendMessageIsolation(chats: seq<StoredChat>, chatId: string, userId: string, message: string,
                             generate: seq<Turn> -> Option<string>, now: int, j: int)
    requires 0 <= j < |chats| && chats[j].user != userId
    ensures var o := SendMessage(chats, chatId, userId, message, generate, now);
      |o.chats| == |chats| && o.chats[j] == chats[j]
  {
  }

  /** Each chat's owner, in collection order. */
  function Owners(chats: seq<StoredChat>): seq<string>
  {
    seq(|chats|, i requires 0 <= i < |chats| => chats[i].user)
  }

  /** Each chat's owner with its projection, in collection order. */
  function Tagged(chats: seq<StoredChat>): seq<(string, Summary)>
  {
    seq(|chats|, i requires 0 <= i < |chats| => (chats[i].user, Summarize(chats[i])))
  }

  /**
   * Filtering keeps exactly the requester's chats, each as often as it
   * occurs, so there are as many as the requester owns.
   */
  lemma {:induction false} OwnedSummariesCounts(chats: seq<StoredChat>, userId: string)
    ensures forall s :: s in OwnedSummaries(chats, userId) <==>
      exists i :: 0 <= i < |chats| && chats[i].user == userId && s == Summarize(chats[i])
    ensures |OwnedSummaries(chats, userId)| == multiset(Owners(chats))[userId]
  {
    if chats != [] {
      OwnedSummariesCounts(chats[1..], userId);
      assert Owners(chats) == [chats[0].user] + Owners(chats[1..]);
      forall s | s in OwnedSummaries(chats[1..], userId)
        ensures exists i :: 0 <= i < |chats| && chats[i].user == userId && s == Summarize(chats[i])
      {
        var i :| 0 <= i < |chats[1..]| && chats[1..][i].user == userId && s == Summarize(chats[1..][i]);
        assert chats[i + 1] == chats[1..][i];
      }
      forall s | exists i :: 0 <= i < |chats| && chats[i].user == userId && s == Summarize(chats[i])
        ensures s in OwnedSummaries(chats, userId)
      {
        var i :| 0 <= i < |chats| && chats[i].user == userId && s == Summarize(chats[i]);
        if i > 0 {
          assert chats[1..][i - 1] == chats[i];
        }
      }
    }
  }

  /** Each projection is listed as often as the requester owns a chat with it. */
  lemma {:induction false} OwnedSummariesBag(chats: seq<StoredChat>, userId: string)
    ensures forall s :: multiset(OwnedSummaries(chats, userId))[s] == multiset(Tagged(chats))[(userId, s)]
  {
    if chats != [] {
      OwnedSummariesBag(chats[1..], userId);
      assert Tagged(chats) == [(chats[0].user, Summarize(chats[0]))] + Tagged(chats[1..]);
    }
  }

  /**
   * `getChats` lists exactly the requester's chats, projected, most
   * recently updated first.
   */
  lemma GetChatsOwned(chats: seq<StoredChat>, userId: string)
    ensures var r := GetChats(chats, userId);
      && SortedDesc(r, UpdatedAt)
      && multiset(r) == multiset(OwnedSummaries(chats, userId))
      && |r| == multiset(Owners(chats))[userId]
      && (forall s :: multiset(r)[s] == multiset(Tagged(chats))[(userId, s)])
      && forall s :: s in r <==> exists i :: 0 <= i < |chats| && chats[i].user == userId && s == Summarize(chats[i])
  {
    SortDescCorrect(OwnedSummaries(chats, userId), UpdatedAt);
    OwnedSummariesCounts(chats, userId);
    OwnedSummariesBag(chats, userId);
    var r := GetChats(chats, userId);
    forall s ensures s in r <==> s in OwnedSummaries(chats, userId) {
      assert s in r <==> s in multiset(r);
    }
  }

  /** The chat collection behind the handlers. */
  class ChatCollection {
    var chats: seq<StoredChat>

    constructor ()
      ensures chats == []
    {
      chats := [];
    }

    method HandleCreateChat(userId: string, message: string, generate: seq<Turn> -> Option<string>, now: int,
                            freshId: string) returns (response: Response)
      modifies this
      ensures Outcome(response, chats) == CreateChat(old(chats), userId, message, generate, now, freshId)
    {
      var assistantResponse := generate(Request(message, []));
      if assistantResponse.None? {
        return ServerError;
      }
      var chat := NewChat(freshId, userId, Title(message),
                          [Message(User, message, now), Message(Assistant, assistantResponse.value, now)], now);
      chat := PreSave(chat, now);
      if !Valid(chat) || HasId(chats, freshId) {
        return ServerError;
      }
      chats := chats + [chat];
      response := Created(chat);
    }

    method HandleSendMessage(chatId: string, userId: string, message: string,
                             generate: seq<Turn> -> Option<string>, now: int) returns (response: Response)
      modifies this
      ensures Outcome(response, chats) == SendMessage(old(chats), chatId, userId, message, generate, now)
    {
      if !IsObjectId(chatId) {
        return ServerError;
      }
      var found := FindOwned(chats, chatId, userId);
      if found.None? {
        return NotFound;
      }
      var i := found.value;
      var chat := chats[i];
      var context := Context(chat.messages);
      var assistantResponse := generate(Request(message, context));
      if assistantResponse.None? {
        return ServerError;
      }
      chat := chat.(messages := chat.messages + [Message(User, message, now), Message(Assistant, assistantResponse.value, now)]);
      chat := PreSave(chat, now);
      if !Valid(chat) {
        return ServerError;
      }
      chats := chats[i := chat];
      response := Sent(chat);
    }

    /** Lists the requester's chats, most recently updated first, and nobody else's. */
    method HandleGetChats(userId: string) returns (response: Response)
      ensures response == Listed(GetChats(chats, userId))
      ensures SortedDesc(response.chats, UpdatedAt)
      ensures forall s :: s in response.chats <==>
        exists i :: 0 <= i < |chats| && chats[i].user == userId && s == Summarize(chats[i])
    {
      GetChatsOwned(chats, userId);
      response := Listed(GetChats(chats, userId));
    }

    /**
     * Answers with the chat only when the id is an ObjectId and the chat has
     * it and belongs to the requester; otherwise 404, or a server error for
     * an id that is not an ObjectId.
     */
    method HandleGetChat(chatId: string, userId: string) returns (response: Response)
      ensures response == GetChat(chats, chatId, userId)
      ensures response.Found? <==>
        IsObjectId(chatId) && exists i :: 0 <= i < |chats| && chats[i].id == chatId && chats[i].user == userId
      ensures response.Found? ==> response.chat in chats && response.chat.id == chatId && response.chat.user == userId
      ensures !response.Found? ==> response == if IsObjectId(chatId) then NotFound else ServerError
    {
      if !IsObjectId(chatId) {
        return ServerError;
      }
      response := GetChat(chats, chatId, userId);
    }
  }
}
