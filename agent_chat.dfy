/**
 * The scripted progression engine of the `AgentChat` component: on entry to
 * a chat with no messages it schedules the template's initial message; each
 * user message is appended at once and, while the script lasts, schedules
 * the scripted reply at `responseIndex`.
 *
 * Every delayed append is a `setTimeout` of the same 1200 ms, so pending
 * callbacks fire in the order they were scheduled: they are modelled as a
 * FIFO queue of timers, and firing one is a step of its own.
 */
module AgentChat {
  import opened Wrappers
  import opened ChatStore
  import opened ChatResponses

  /** A pending callback: the initial message, or the reply scheduled for script index `index`. */
  datatype Timer =
    | InitialAppend(content: string)
    | ReplyAppend(content: string, index: nat)

  /** The component instance's state: React state, the `initialMessagesAdded` ref and the pending timers. */
  datatype View = View(responseIndex: nat, isTyping: bool, initialMessagesAdded: bool, timers: seq<Timer>)

  const Mounted: View := View(0, false, false, [])

  /**
   * When the reply index moves. `AsWritten`: inside the reply's timer, as the
   * component does. `Reserving`: when the reply is scheduled, the corrected
   * behaviour (see `ReservedRepliesInOrder`).
   */
  datatype Progression = AsWritten | Reserving

  datatype Event =
    | EffectRuns
    | UserSends(text: string, msgId: string, now: int)
    | TimerFires(msgId: string, now: int)

  /** Chats after a step, the new view, and the timers that fired during it. */
  datatype Outcome = Outcome(chats: seq<Chat>, view: View, fired: seq<Timer>)

  /** The initial-message effect: schedules the initial message once, for a chat with no messages. */
  function Entry(chats: seq<Chat>, chatId: string, v: View, resolve: string -> Template): View
  {
    match Find(chats, chatId)
    case None => v
    case Some(chat) =>
      if |chat.messages| == 0 && !v.initialMessagesAdded then
        var t := resolve(chat.title);
        v.(initialMessagesAdded := true, isTyping := true, timers := v.timers + [InitialAppend(t.initialMessage)])
      else v
  }

  /** `handleSendMessage`: the user message first, then the scripted reply is scheduled if one exists. */
  function Send(chats: seq<Chat>, chatId: string, v: View, text: string, msgId: string, now: int,
                resolve: string -> Template, mode: Progression): Outcome
  {
    match Find(chats, chatId)
    case None => Outcome(chats, v, [])
    case Some(chat) =>
      var chats' := AppendMessage(chats, chat.id, ChatMessage(msgId, text, now, true));
      var t := resolve(chat.title);
      if v.responseIndex < |t.responses| then
        var timer := ReplyAppend(t.responses[v.responseIndex].assistant, v.responseIndex);
        var v' := v.(isTyping := true, timers := v.timers + [timer]);
        Outcome(chats', if mode == Reserving then v'.(responseIndex := v.responseIndex + 1) else v', [])
      else Outcome(chats', v, [])
  }

  /** The oldest pending callback runs: it appends its assistant message and, as written, moves the index. */
  function Fire(chats: seq<Chat>, chatId: string, v: View, msgId: string, now: int, mode: Progression): Outcome
  {
    if v.timers == [] then Outcome(chats, v, [])
    else
      var t := v.timers[0];
      var chats' := AppendMessage(chats, chatId, ChatMessage(msgId, t.content, now, false));
      var v' := v.(timers := v.timers[1..], isTyping := false);
      match t
      case InitialAppend(_) => Outcome(chats', v', [t])
      case ReplyAppend(_, i) => Outcome(chats', if mode == AsWritten then v'.(responseIndex := i + 1) else v', [t])
  }

  function Handle(chats: seq<Chat>, chatId: string, v: View, e: Event, resolve: string -> Template,
                mode: Progression): Outcome
  {
    match e
    case EffectRuns => Outcome(chats, Entry(chats, chatId, v, resolve), [])
    case UserSends(text, msgId, now) => Send(chats, chatId, v, text, msgId, now, resolve, mode)
    case TimerFires(msgId, now) => Fire(chats, chatId, v, msgId, now, mode)
  }

  function Run(chats: seq<Chat>, chatId: string, v: View, events: seq<Event>, resolve: string -> Template,
               mode: Progression): Outcome
    decreases |events|
  {
    if events == [] then Outcome(chats, v, [])
    else
      var s := Handle(chats, chatId, v, events[0], resolve, mode);
      var r := Run(s.chats, chatId, s.view, events[1..], resolve, mode);
      Outcome(r.chats, r.view, s.fired + r.fired)
  }

  /** Support links show once the chat has more than one message and its template has links. */
  predicate ShowsSupportLinks(chats: seq<Chat>, chatId: string, resolve: string -> Template)
  {
    match Find(chats, chatId)
    case None => false
    case Some(chat) => |chat.messages| > 1 && |resolve(chat.title).supportLinks| > 0
  }

  /** Messages are only ever appended, so once the support links show, no step hides them. */
  lemma SupportLinksStay(chats: seq<Chat>, chatId: string, v: View, e: Event, resolve: string -> Template,
                         mode: Progression)
    requires ShowsSupportLinks(chats, chatId, resolve)
    ensures ShowsSupportLinks(Handle(chats, chatId, v, e, resolve, mode).chats, chatId, resolve)
  {
    match e
    case EffectRuns =>
    case UserSends(text, msgId, now) =>
      FindFirst(chats, chatId);
      FindAfterAppend(chats, chatId, ChatMessage(msgId, text, now, true), chatId);
    case TimerFires(msgId, now) =>
      if v.timers != [] {
        FindAfterAppend(chats, chatId, ChatMessage(msgId, v.timers[0].content, now, false), chatId);
      }
  }

  /** The chat `chatId` resolves to, if any, has template `tmpl`. */
  predicate Resolves(chats: seq<Chat>, chatId: string, resolve: string -> Template, tmpl: Template)
  {
    Find(chats, chatId).Some? ==> resolve(Find(chats, chatId).value.title) == tmpl
  }

  /**
   * What holds of every schedule: `fired + v.timers` is every timer scheduled
   * so far, in order. The index never passes the end of the script, every
   * reply is the script's line at its index, and the initial message is
   * scheduled at most once, and only after the guard is set.
   */
  ghost predicate Inv(v: View, fired: seq<Timer>, tmpl: Template)
  {
    var log := fired + v.timers;
    && v.responseIndex <= |tmpl.responses|
    && (forall i :: 0 <= i < |log| && log[i].ReplyAppend? ==>
          log[i].index < |tmpl.responses| && log[i].content == tmpl.responses[log[i].index].assistant)
    && (forall i :: 0 <= i < |log| && log[i].InitialAppend? ==>
          log[i].content == tmpl.initialMessage && v.initialMessagesAdded)
    && (forall i, j :: 0 <= i < j < |log| && log[i].InitialAppend? ==> !log[j].InitialAppend?)
  }

  /** The script indices of the replies in a schedule, in order. */
  function ReplyIndices(log: seq<Timer>): seq<nat>
  {
    if log == [] then []
    else (if log[0].ReplyAppend? then [log[0].index] else []) + ReplyIndices(log[1..])
  }

  function Upto(n: nat): (r: seq<nat>)
    ensures |r| == n && forall i :: 0 <= i < n ==> r[i] == i
  {
    if n == 0 then [] else Upto(n - 1) + [n - 1]
  }

  lemma {:induction false} ReplyIndicesAppend(a: seq<Timer>, b: seq<Timer>)
    ensures ReplyIndices(a + b) == ReplyIndices(a) + ReplyIndices(b)
  {
    if a == [] {
      assert a + b == b;
    } else {
      var head := if a[0].ReplyAppend? then [a[0].index] else [];
      calc {
        ReplyIndices(a + b);
        { assert (a + b)[0] == a[0]; assert (a + b)[1..] == a[1..] + b; }
        head + ReplyIndices(a[1..] + b);
        { ReplyIndicesAppend(a[1..], b); }
        head + (ReplyIndices(a[1..]) + ReplyIndices(b));
      }
    }
  }

  /** Running the effect again, with the guard set, schedules nothing more. */
  lemma EntryIdempotent(chats: seq<Chat>, chatId: string, v: View, resolve: string -> Template)
    ensures Entry(chats, chatId, Entry(chats, chatId, v, resolve), resolve) == Entry(chats, chatId, v, resolve)
    ensures Entry(chats, chatId, v, resolve) != v <==>
      Find(chats, chatId).Some? && |Find(chats, chatId).value.messages| == 0 && !v.initialMessagesAdded
  {
  }

  /**
   * Sending to a missing chat does nothing. Otherwise the user's message is
   * appended at once, and exactly when the script has a line at
   * `responseIndex` that line's reply is scheduled; the index stays put.
   */
  lemma SendEffect(chats: seq<Chat>, chatId: string, v: View, text: string, msgId: string, now: int,
                   resolve: string -> Template)
    ensures var o := Send(chats, chatId, v, text, msgId, now, resolve, AsWritten);
      && (Find(chats, chatId).None? ==> o == Outcome(chats, v, []))
      && (Find(chats, chatId).Some? ==>
           var t := resolve(Find(chats, chatId).value.title);
           && o.chats == AppendMessage(chats, chatId, ChatMessage(msgId, text, now, true))
           && o.view.responseIndex == v.responseIndex
           && o.view.timers == v.timers +
                (if v.responseIndex < |t.responses|
                 then [ReplyAppend(t.responses[v.responseIndex].assistant, v.responseIndex)] else []))
  {
    FindFirst(chats, chatId);
  }

  /** Firing a reply appends its text as an assistant message and sets the index past it. */
  lemma FireReply(chats: seq<Chat>, chatId: string, v: View, msgId: string, now: int)
    requires v.timers != [] && v.timers[0].ReplyAppend?
    ensures var o := Fire(chats, chatId, v, msgId, now, AsWritten);
      && o.chats == AppendMessage(chats, chatId, ChatMessage(msgId, v.timers[0].content, now, false))
      && o.view.responseIndex == v.timers[0].index + 1
      && o.view.timers == v.timers[1..]
      && o.fired == [v.timers[0]]
  {
  }

  /**
   * What a step keeps: the invariant, the chat's template, the schedule so
   * far as a prefix of the new one, and (when reserving) the replies
   * scheduled being exactly the script's first `responseIndex` lines.
   */
  ghost predicate Keeps(v: View, fired: seq<Timer>, s: Outcome, chatId: string, resolve: string -> Template,
                        mode: Progression, tmpl: Template)
  {
    && Inv(s.view, fired + s.fired, tmpl) && Resolves(s.chats, chatId, resolve, tmpl)
    && fired + v.timers <= fired + s.fired + s.view.timers
    && (mode == Reserving && ReplyIndices(fired + v.timers) == Upto(v.responseIndex) ==>
          ReplyIndices(fired + s.fired + s.view.timers) == Upto(s.view.responseIndex))
  }

  lemma EntryKeeps(chats: seq<Chat>, chatId: string, v: View, fired: seq<Timer>,
                   resolve: string -> Template, mode: Progression, tmpl: Template)
    requires Inv(v, fired, tmpl) && Resolves(chats, chatId, resolve, tmpl)
    ensures Keeps(v, fired, Outcome(chats, Entry(chats, chatId, v, resolve), []), chatId, resolve, mode, tmpl)
  {
    var v' := Entry(chats, chatId, v, resolve);
    assert fired + [] == fired;
    if v' != v {
      var timer := InitialAppend(tmpl.initialMessage);
      assert fired + v'.timers == (fired + v.timers) + [timer];
      ReplyIndicesAppend(fired + v.timers, [timer]);
      assert ReplyIndices([timer]) == [];
    }
  }

  /** Scheduling the reply at the current index keeps the invariant and extends the schedule by that index. */
  lemma ScheduleReplyKeeps(v: View, fired: seq<Timer>, tmpl: Template)
    requires Inv(v, fired, tmpl) && v.responseIndex < |tmpl.responses|
    ensures var timer := ReplyAppend(tmpl.responses[v.responseIndex].assistant, v.responseIndex);
      var v' := v.(isTyping := true, timers := v.timers + [timer]);
      && Inv(v', fired, tmpl) && Inv(v'.(responseIndex := v.responseIndex + 1), fired, tmpl)
      && fired + v'.timers == fired + v.timers + [timer]
      && ReplyIndices(fired + v'.timers) == ReplyIndices(fired + v.timers) + [v.responseIndex]
  {
    var timer := ReplyAppend(tmpl.responses[v.responseIndex].assistant, v.responseIndex);
    var log := fired + v.timers;
    assert fired + (v.timers + [timer]) == log + [timer];
    assert forall i :: 0 <= i < |log| ==> (log + [timer])[i] == log[i];
    ReplyIndicesAppend(log, [timer]);
    assert ReplyIndices([timer]) == [v.responseIndex];
  }

  lemma SendKeeps(chats: seq<Chat>, chatId: string, v: View, fired: seq<Timer>, text: string, msgId: string,
                  now: int, resolve: string -> Template, mode: Progression, tmpl: Template)
    requires Inv(v, fired, tmpl) && Resolves(chats, chatId, resolve, tmpl)
    ensures Keeps(v, fired, Send(chats, chatId, v, text, msgId, now, resolve, mode), chatId, resolve, mode, tmpl)
  {
    assert fired + [] == fired;
    FindFirst(chats, chatId);
    if Find(chats, chatId).Some? {
      var chat := Find(chats, chatId).value;
      FindAfterAppend(chats, chat.id, ChatMessage(msgId, text, now, true), chatId);
      if v.responseIndex < |tmpl.responses| {
        ScheduleReplyKeeps(v, fired, tmpl);
      }
    }
  }

  lemma FireKeeps(chats: seq<Chat>, chatId: string, v: View, fired: seq<Timer>, msgId: string, now: int,
                  resolve: string -> Template, mode: Progression, tmpl: Template)
    requires Inv(v, fired, tmpl) && Resolves(chats, chatId, resolve, tmpl)
    ensures Keeps(v, fired, Fire(chats, chatId, v, msgId, now, mode), chatId, resolve, mode, tmpl)
  {
    if v.timers != [] {
      var s := Fire(chats, chatId, v, msgId, now, mode);
      FindAfterAppend(chats, chatId, ChatMessage(msgId, v.timers[0].content, now, false), chatId);
      assert fired + s.fired + s.view.timers == fired + v.timers;
      assert v.timers[0] == (fired + v.timers)[|fired|];
    } else {
      assert fired + [] == fired;
    }
  }

  lemma HandleKeeps(chats: seq<Chat>, chatId: string, v: View, fired: seq<Timer>,
                  e: Event, resolve: string -> Template, mode: Progression, tmpl: Template)
    requires Inv(v, fired, tmpl) && Resolves(chats, chatId, resolve, tmpl)
    ensures Keeps(v, fired, Handle(chats, chatId, v, e, resolve, mode), chatId, resolve, mode, tmpl)
  {
    match e
    case EffectRuns => EntryKeeps(chats, chatId, v, fired, resolve, mode, tmpl);
    case UserSends(text, msgId, now) => SendKeeps(chats, chatId, v, fired, text, msgId, now, resolve, mode, tmpl);
    case TimerFires(msgId, now) => FireKeeps(chats, chatId, v, fired, msgId, now, resolve, mode, tmpl);
  }

  /** The invariant holds after any sequence of effects, sends and timer callbacks. */
  lemma {:induction false} RunInv(chats: seq<Chat>, chatId: string, v: View, fired: seq<Timer>,
                                  events: seq<Event>, resolve: string -> Template, mode: Progression,
                                  tmpl: Template)
    requires Inv(v, fired, tmpl) && Resolves(chats, chatId, resolve, tmpl)
    ensures var r := Run(chats, chatId, v, events, resolve, mode);
      && Inv(r.view, fired + r.fired, tmpl) && Resolves(r.chats, chatId, resolve, tmpl)
      && (mode == Reserving && ReplyIndices(fired + v.timers) == Upto(v.responseIndex) ==>
            ReplyIndices(fired + r.fired + r.view.timers) == Upto(r.view.responseIndex))
    decreases |events|
  {
    if events != [] {
      var s := Handle(chats, chatId, v, events[0], resolve, mode);
      HandleKeeps(chats, chatId, v, fired, events[0], resolve, mode, tmpl);
      RunInv(s.chats, chatId, s.view, fired + s.fired, events[1..], resolve, mode, tmpl);
      var r := Run(s.chats, chatId, s.view, events[1..], resolve, mode);
      assert fired + s.fired + r.fired == fired + (s.fired + r.fired);
    } else {
      assert fired + [] == fired;
    }
  }

  /**
   * From a freshly mounted component, under any sequence of its own effect
   * runs, sends and timer callbacks, the initial message is scheduled at most
   * once and the reply index stays within the script.
   */
  lemma InitialMessageAtMostOnce(chats: seq<Chat>, chatId: string, events: seq<Event>,
                                 resolve: string -> Template, tmpl: Template)
    requires Resolves(chats, chatId, resolve, tmpl)
    ensures var r := Run(chats, chatId, Mounted, events, resolve, AsWritten);
      var log := r.fired + r.view.timers;
      && r.view.responseIndex <= |tmpl.responses|
      && forall i, j :: 0 <= i < j < |log| && log[i].InitialAppend? ==> !log[j].InitialAppend?
  {
    RunInv(chats, chatId, Mounted, [], events, resolve, AsWritten, tmpl);
    var r := Run(chats, chatId, Mounted, events, resolve, AsWritten);
    assert [] + r.fired == r.fired;
  }

  /**
   * Once the script is exhausted, with no reply pending, it stays exhausted:
   * the index does not move and no reply is ever scheduled again.
   */
  lemma {:induction false} ExhaustedStaysExhausted(chats: seq<Chat>, chatId: string, v: View,
                                                   events: seq<Event>, resolve: string -> Template,
                                                   tmpl: Template)
    requires Resolves(chats, chatId, resolve, tmpl)
    requires v.responseIndex == |tmpl.responses|
    requires forall i :: 0 <= i < |v.timers| ==> v.timers[i].InitialAppend?
    ensures var r := Run(chats, chatId, v, events, resolve, AsWritten);
      && r.view.responseIndex == |tmpl.responses|
      && (forall i :: 0 <= i < |r.view.timers| ==> r.view.timers[i].InitialAppend?)
      && (forall i :: 0 <= i < |r.fired| ==> r.fired[i].InitialAppend?)
    decreases |events|
  {
    if events != [] {
      var s := Handle(chats, chatId, v, events[0], resolve, AsWritten);
      match events[0] {
        case EffectRuns =>
        case UserSends(text, msgId, now) =>
          if Find(chats, chatId).Some? {
            FindFirst(chats, chatId);
            FindAfterAppend(chats, chatId, ChatMessage(msgId, text, now, true), chatId);
          }
        case TimerFires(msgId, now) =>
          if v.timers != [] {
            FindAfterAppend(chats, chatId, ChatMessage(msgId, v.timers[0].content, now, false), chatId);
          }
      }
      ExhaustedStaysExhausted(s.chats, chatId, s.view, events[1..], resolve, tmpl);
    }
  }

  /** In a store holding one chat, it is the one found, and the one a message is appended to. */
  lemma OnlyChat(c: Chat, msg: ChatMessage)
    ensures Find([c], c.id) == Some(c)
    ensures AppendMessage([c], c.id, msg) == [c.(messages := c.messages + [msg])]
  {
    assert [c][1..] == [];
    assert [c.(messages := c.messages + [msg])] + [] == [c.(messages := c.messages + [msg])];
  }

  /** A send to the only chat, with the index at 0 and the guard set, queues the first reply. */
  lemma SendAtStart(c: Chat, typing: bool, timers: seq<Timer>, text: string, msgId: string, now: int,
                    resolve: string -> Template)
    requires |resolve(c.title).responses| > 0
    ensures Handle([c], c.id, View(0, typing, true, timers), UserSends(text, msgId, now), resolve, AsWritten)
      == Outcome([c.(messages := c.messages + [ChatMessage(msgId, text, now, true)])],
                 View(0, true, true, timers + [ReplyAppend(resolve(c.title).responses[0].assistant, 0)]), [])
  {
    OnlyChat(c, ChatMessage(msgId, text, now, true));
  }

  /** A pending copy of the first reply lands in the only chat, and the index becomes 1. */
  lemma FireFirstReply(c: Chat, timer: Timer, rest: seq<Timer>, typing: bool, index: nat, msgId: string,
                       now: int, resolve: string -> Template)
    requires timer.ReplyAppend? && timer.index == 0
    ensures Handle([c], c.id, View(index, typing, true, [timer] + rest), TimerFires(msgId, now), resolve, AsWritten)
      == Outcome([c.(messages := c.messages + [ChatMessage(msgId, timer.content, now, false)])],
                 View(1, false, true, rest), [timer])
  {
    OnlyChat(c, ChatMessage(msgId, timer.content, now, false));
    assert ([timer] + rest)[1..] == rest;
  }

  /**
   * As written, two messages sent before the first reply lands both get the
   * reply at the same index. The trace below, in a store holding one chat
   * with no messages whose initial message is already scheduled, ends with
   * `responses[0]` in the chat twice and the index only at 1.
   */
  lemma DuplicateReplyAsWritten(resolve: string -> Template, c: Chat, a: string, b: string,
                                id0: string, id1: string, id2: string, id3: string, now: int)
    requires |resolve(c.title).responses| > 0
    ensures var t := ReplyAppend(resolve(c.title).responses[0].assistant, 0);
      var c1 := c.(messages := c.messages + [ChatMessage(id0, a, now, true)]);
      var c2 := c.(messages := c1.messages + [ChatMessage(id1, b, now, true)]);
      var c3 := c.(messages := c2.messages + [ChatMessage(id2, t.content, now, false)]);
      var c4 := c.(messages := c3.messages + [ChatMessage(id3, t.content, now, false)]);
      && Handle([c], c.id, View(0, false, true, []), UserSends(a, id0, now), resolve, AsWritten)
         == Outcome([c1], View(0, true, true, [t]), [])
      && Handle([c1], c.id, View(0, true, true, [t]), UserSends(b, id1, now), resolve, AsWritten)
         == Outcome([c2], View(0, true, true, [t, t]), [])
      && Handle([c2], c.id, View(0, true, true, [t, t]), TimerFires(id2, now), resolve, AsWritten)
         == Outcome([c3], View(1, false, true, [t]), [t])
      && Handle([c3], c.id, View(1, false, true, [t]), TimerFires(id3, now), resolve, AsWritten)
         == Outcome([c4], View(1, false, true, []), [t])
  {
    var t := ReplyAppend(resolve(c.title).responses[0].assistant, 0);
    var c1 := c.(messages := c.messages + [ChatMessage(id0, a, now, true)]);
    var c2 := c.(messages := c1.messages + [ChatMessage(id1, b, now, true)]);
    var c3 := c.(messages := c2.messages + [ChatMessage(id2, t.content, now, false)]);
    SendAtStart(c, false, [], a, id0, now, resolve);
    assert [] + [t] == [t];
    SendAtStart(c1, true, [t], b, id1, now, resolve);
    assert [t] + [t] == [t, t];
    FireFirstReply(c2, t, [t], true, 0, id2, now, resolve);
    FireFirstReply(c3, t, [], false, 1, id3, now, resolve);
    assert [t] + [] == [t];
  }

  /**
   * Corrected: with the index reserved when the reply is scheduled, the
   * replies scheduled over the component's life are the script's lines
   * 0, 1, 2, ... in order, each at most once, so a script of k responses
   * answers at most k user messages.
   */
  lemma ReservedRepliesInOrder(chats: seq<Chat>, chatId: string, events: seq<Event>,
                               resolve: string -> Template, tmpl: Template)
    requires Resolves(chats, chatId, resolve, tmpl)
    ensures var r := Run(chats, chatId, Mounted, events, resolve, Reserving);
      && ReplyIndices(r.fired + r.view.timers) == Upto(r.view.responseIndex)
      && r.view.responseIndex <= |tmpl.responses|
  {
    RunInv(chats, chatId, Mounted, [], events, resolve, Reserving, tmpl);
    var r := Run(chats, chatId, Mounted, events, resolve, Reserving);
    assert [] + r.fired == r.fired;
    assert ReplyIndices([]) == Upto(0);
  }

  class AgentChatView {
    const store: Store
    const chatId: string
    var responseIndex: nat
    var isTyping: bool
    var initialMessagesAdded: bool
    var timers: seq<Timer>

    function State(): View
      reads this
    {
      View(responseIndex, isTyping, initialMessagesAdded, timers)
    }

    constructor (store: Store, chatId: string)
      ensures this.store == store && this.chatId == chatId && State() == Mounted
    {
      this.store := store;
      this.chatId := chatId;
      responseIndex := 0;
      isTyping := false;
      initialMessagesAdded := false;
      timers := [];
    }

    /** The initial-message effect; it reads the store and writes only the component's state. */
    method RunEffect()
      modifies this
      ensures State() == Entry(store.chats, chatId, old(State()), GetChatResponseByTask)
    {
      var chat := Find(store.chats, chatId);
      if chat.None? {
        return;
      }
      if |chat.value.messages| == 0 && !initialMessagesAdded {
        initialMessagesAdded := true;
        isTyping := true;
        var template := GetChatResponseByTask(chat.value.title);
        timers := timers + [InitialAppend(template.initialMessage)];
      }
    }

    method HandleSendMessage(message: string, msgId: string, now: int)
      modifies this, store
      ensures var o := Send(old(store.chats), chatId, old(State()), message, msgId, now,
                            GetChatResponseByTask, AsWritten);
        store.chats == o.chats && State() == o.view
      ensures store.activeChat == old(store.activeChat)
    {
      var chat := Find(store.chats, chatId);
      if chat.None? {
        return;
      }
      FindFirst(store.chats, chatId);
      store.AddMessage(chat.value.id, message, now, true, msgId);
      var template := GetChatResponseByTask(chat.value.title);
      var nextResponseIndex := responseIndex;
      if nextResponseIndex < |template.responses| {
        isTyping := true;
        timers := timers + [ReplyAppend(template.responses[nextResponseIndex].assistant, nextResponseIndex)];
      }
    }

    /** The oldest pending 1200 ms callback runs. */
    method FireTimer(msgId: string, now: int)
      modifies this, store
      ensures var o := Fire(old(store.chats), chatId, old(State()), msgId, now, AsWritten);
        store.chats == o.chats && State() == o.view
      ensures store.activeChat == old(store.activeChat)
    {
      if timers == [] {
        return;
      }
      var t := timers[0];
      timers := timers[1..];
      store.AddMessage(chatId, t.content, now, false, msgId);
      if t.ReplyAppend? {
        responseIndex := t.index + 1;
      }
      isTyping := false;
    }
  }
}
