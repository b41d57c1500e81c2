/**
 * The client-side chat store: an in-memory list of chats, newest first, and
 * a pointer to the active chat.
 *
 * Ids and timestamps come from `Date.now()` in the store; here they are
 * parameters (`freshId`, `timestamp`, `createdAt`), and nothing assumes
 * that they are unique.
 */
module ChatStore {
  import opened Wrappers
  import opened JsArrays

  datatype ChatMessage = ChatMessage(id: string, content: string, timestamp: int, isUser: bool)

  /** `taskId` refers back to the task that created the chat, if any. */
  datatype Chat = Chat(id: string, title: string, messages: seq<ChatMessage>, createdAt: int,
                       taskId: Option<int>)

  function CreatedAt(c: Chat): int { c.createdAt }

  /**
   * The value `addMessage` stores: the chats mapped so that every chat whose id
   * is `chatId` gets `msg` appended to its messages.
   */
  function AppendMessage(chats: seq<Chat>, chatId: string, msg: ChatMessage): seq<Chat>
  {
    if chats == [] then []
    else
      var c := chats[0];
      var c' := if c.id == chatId then c.(messages := c.messages + [msg]) else c;
      [c'] + AppendMessage(chats[1..], chatId, msg)
  }

  /** `chats.find(c => c.id === chatId)`: the first chat with that id. */
  function Find(chats: seq<Chat>, chatId: string): Option<Chat>
  {
    if chats == [] then None
    else if chats[0].id == chatId then Some(chats[0])
    else Find(chats[1..], chatId)
  }

  predicate HasChat(chats: seq<Chat>, chatId: string)
  {
    exists i :: 0 <= i < |chats| && chats[i].id == chatId
  }

  /**
   * Position by position, `AppendMessage` changes only the chats whose id
   * matches, and those only by one message added at the end.
   */
  lemma {:induction false} AppendMessageAt(chats: seq<Chat>, chatId: string, msg: ChatMessage)
    ensures |AppendMessage(chats, chatId, msg)| == |chats|
    ensures forall i :: 0 <= i < |chats| && chats[i].id != chatId ==>
      AppendMessage(chats, chatId, msg)[i] == chats[i]
    ensures forall i :: 0 <= i < |chats| && chats[i].id == chatId ==>
      AppendMessage(chats, chatId, msg)[i] == chats[i].(messages := chats[i].messages + [msg])
  {
    if chats != [] {
      AppendMessageAt(chats[1..], chatId, msg);
    }
  }

  /** Every chat keeps its id, title, creation time and task, and its old messages as a prefix. */
  lemma AppendMessageKeepsHistory(chats: seq<Chat>, chatId: string, msg: ChatMessage, i: int)
    requires 0 <= i < |chats|
    ensures |AppendMessage(chats, chatId, msg)| == |chats|
    ensures var c' := AppendMessage(chats, chatId, msg)[i];
      && c'.id == chats[i].id && c'.title == chats[i].title
      && c'.createdAt == chats[i].createdAt && c'.taskId == chats[i].taskId
      && chats[i].messages <= c'.messages
      && |c'.messages| == |chats[i].messages| + (if chats[i].id == chatId then 1 else 0)
  {
    AppendMessageAt(chats, chatId, msg);
  }

  /** With an id that no chat has, `addMessage` stores the same chats. */
  lemma AppendMessageUnknownId(chats: seq<Chat>, chatId: string, msg: ChatMessage)
    requires !HasChat(chats, chatId)
    ensures AppendMessage(chats, chatId, msg) == chats
  {
    AppendMessageAt(chats, chatId, msg);
  }

  /** `find` answers Some exactly when a chat has the id, and then returns the first one. */
  lemma {:induction false} FindFirst(chats: seq<Chat>, chatId: string)
    ensures Find(chats, chatId).Some? <==> HasChat(chats, chatId)
    ensures Find(chats, chatId).Some? ==>
      exists i :: 0 <= i < |chats| && chats[i] == Find(chats, chatId).value
        && forall j :: 0 <= j < i ==> chats[j].id != chatId
    ensures Find(chats, chatId).Some? ==> Find(chats, chatId).value.id == chatId
  {
    if chats != [] && chats[0].id != chatId {
      FindFirst(chats[1..], chatId);
      if HasChat(chats, chatId) {
        var i :| 0 <= i < |chats| && chats[i].id == chatId;
        assert chats[1..][i - 1].id == chatId;
      }
      if Find(chats, chatId).Some? {
        var i :| 0 <= i < |chats[1..]| && chats[1..][i] == Find(chats, chatId).value
          && forall j :: 0 <= j < i ==> chats[1..][j].id != chatId;
        assert chats[i + 1] == Find(chats, chatId).value;
      }
    } else if chats != [] {
      assert chats[0].id == chatId;
    }
  }

  /**
   * Appending a message never changes which chat `find` resolves, nor its title:
   * the resolved chat only gains the message when its id is the target.
   */
  lemma {:induction false} FindAfterAppend(chats: seq<Chat>, chatId: string, msg: ChatMessage, target: string)
    ensures Find(AppendMessage(chats, chatId, msg), target) ==
      match Find(chats, target)
      case None => None
      case Some(c) => Some(if c.id == chatId then c.(messages := c.messages + [msg]) else c)
  {
    if chats != [] {
      FindAfterAppend(chats[1..], chatId, msg, target);
    }
  }

  class Store {
    var chats: seq<Chat>
    var activeChat: Option<string>

    constructor ()
      ensures chats == [] && activeChat == None
    {
      chats := [];
      activeChat := None;
    }

    /** Points at any id, or at none, without checking that such a chat exists. */
    method SetActiveChat(chatId: Option<string>)
      modifies this
      ensures activeChat == chatId && chats == old(chats)
    {
      activeChat := chatId;
    }

    /** Puts the new chat first, makes it active and returns its id. */
    method AddChat(title: string, messages: seq<ChatMessage>, createdAt: int, taskId: Option<int>,
                   freshId: string) returns (id: string)
      modifies this
      ensures id == freshId
      ensures chats == [Chat(id, title, messages, createdAt, taskId)] + old(chats)
      ensures activeChat == Some(id)
    {
      id := freshId;
      var newChat := Chat(id, title, messages, createdAt, taskId);
      chats := [newChat] + chats;
      activeChat := Some(id);
    }

    /** Appends the message, with the fresh id, to the chat with id `chatId`. */
    method AddMessage(chatId: string, content: string, timestamp: int, isUser: bool, freshId: string)
      modifies this
      ensures chats == AppendMessage(old(chats), chatId, ChatMessage(freshId, content, timestamp, isUser))
      ensures activeChat == old(activeChat)
    {
      var msg := ChatMessage(freshId, content, timestamp, isUser);
      chats := AppendMessage(chats, chatId, msg);
    }

    /**
     * Sorts the stored chats newest first, in place, and returns the first
     * `limit` of them.
     */
    method GetRecentChats(limit: int := 5) returns (recent: seq<Chat>)
      modifies this
      ensures chats == SortDesc(old(chats), CreatedAt)
      ensures SortedDesc(chats, CreatedAt) && multiset(chats) == multiset(old(chats))
      ensures recent == SliceTo(chats, limit)
      ensures activeChat == old(activeChat)
    {
      chats := SortDesc(chats, CreatedAt);
      SortDescCorrect(old(chats), CreatedAt);
      recent := SliceTo(chats, limit);
    }
  }

  /**
   * The chats `getRecentChats` returns: `min(limit, |chats|)` of them for a
   * non-negative limit, newest first, and none older than a chat left out.
   */
  lemma RecentChats(chats: seq<Chat>, limit: nat)
    ensures var recent := Top(chats, CreatedAt, limit);
      && |recent| == (if limit < |chats| then limit else |chats|)
      && SortedDesc(recent, CreatedAt)
      && multiset(recent) <= multiset(chats)
      && forall d, i :: d in multiset(chats) - multiset(recent) && 0 <= i < |recent| ==>
           recent[i].createdAt >= d.createdAt
  {
    TopOfSort(chats, CreatedAt, limit);
  }

  /** Sorting in place is idempotent: a second `getRecentChats` finds the chats already in order. */
  lemma GetRecentChatsTwice(chats: seq<Chat>)
    ensures SortDesc(SortDesc(chats, CreatedAt), CreatedAt) == SortDesc(chats, CreatedAt)
  {
    SortDescCorrect(chats, CreatedAt);
    SortDescOfSorted(SortDesc(chats, CreatedAt), CreatedAt);
  }
}
