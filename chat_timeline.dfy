/**
 * The progression engine of the `ChatTimeline` component, which follows the
 * store's active chat. On entry to an empty chat it shows the template's
 * steps, posts the initial message after the 4000 ms steps animation and the
 * first scripted reply 2000 ms later, and only then shows the input; each
 * user message schedules the scripted reply at `responseIndex + 1` after
 * 1200 ms.
 *
 * The three delays differ, so pending callbacks do not fire in the order
 * they were scheduled: firing is a step that picks any pending timer. Each
 * timer carries the id of the chat it was scheduled for, which is where its
 * message lands, whichever chat is active by then.
 */
module ChatTimeline {
  import opened Wrappers
  import opened ChatStore
  import opened ChatResponses
  import AgentChat

  datatype Timer =
    | InitialAppend(chatId: string, content: string, reply: Option<string>)
    | FirstReply(chatId: string, reply: Option<string>)
    | ReplyAppend(chatId: string, content: string, index: nat)

  datatype View = View(responseIndex: nat, showInput: bool, isTyping: bool, initialMessagesAdded: bool,
                       timers: seq<Timer>)

  const Mounted: View := View(0, false, false, false, [])

  datatype Event =
    | EffectRuns
    | Select(chatId: Option<string>)
    | UserSends(text: string, msgId: string, now: int)
    | TimerFires(k: nat, msgId: string, now: int)

  /** The store's chats and active chat after a step, the new view, and the timers that fired. */
  datatype Outcome = Outcome(chats: seq<Chat>, activeChat: Option<string>, view: View, fired: seq<Timer>)

  /** `chats.find(c => c.id === activeChat)`: no chat has the id `null`. */
  function ActiveChat(chats: seq<Chat>, activeChat: Option<string>): Option<Chat>
  {
    if activeChat.None? then None else Find(chats, activeChat.value)
  }

  /** `responses[0].assistant`, read when the nested callback runs; None where it would throw. */
  function FirstScriptedReply(t: Template): Option<string>
  {
    if |t.responses| > 0 then Some(t.responses[0].assistant) else None
  }

  /**
   * The effect: an empty chat gets the initial message scheduled once; a chat
   * that already has messages shows the input at once.
   */
  function Entry(chats: seq<Chat>, activeChat: Option<string>, v: View, resolve: string -> Template): View
  {
    match ActiveChat(chats, activeChat)
    case None => v
    case Some(chat) =>
      if |chat.messages| == 0 && !v.initialMessagesAdded then
        var t := resolve(chat.title);
        v.(initialMessagesAdded := true, isTyping := true,
           timers := v.timers + [InitialAppend(chat.id, t.initialMessage, FirstScriptedReply(t))])
      else if |chat.messages| > 0 && !v.showInput then v.(showInput := true)
      else v
  }

  /** `handleSendMessage`: the user message, then the reply at `responseIndex + 1` if the script has one. */
  function Send(chats: seq<Chat>, activeChat: Option<string>, v: View, text: string, msgId: string, now: int,
                resolve: string -> Template, mode: AgentChat.Progression): Outcome
  {
    match ActiveChat(chats, activeChat)
    case None => Outcome(chats, activeChat, v, [])
    case Some(chat) =>
      var chats' := AppendMessage(chats, chat.id, ChatMessage(msgId, text, now, true));
      var next := v.responseIndex + 1;
      var t := resolve(chat.title);
      if next < |t.responses| then
        var v' := v.(isTyping := true, timers := v.timers + [ReplyAppend(chat.id, t.responses[next].assistant, next)]);
        Outcome(chats', activeChat, if mode == AgentChat.Reserving then v'.(responseIndex := next) else v', [])
      else Outcome(chats', activeChat, v, [])
  }

  /** The pending timers without the one at `k`. */
  function Without(s: seq<Timer>, k: nat): (r: seq<Timer>)
    requires k < |s|
    ensures |r| == |s| - 1
  {
    s[..k] + s[k + 1..]
  }

  /**
   * The pending timer at `k` runs. The initial message schedules the first
   * reply; the first reply shows the input; a scripted reply, as written,
   * moves the index to its own.
   */
  function Fire(chats: seq<Chat>, activeChat: Option<string>, v: View, k: nat, msgId: string, now: int,
                mode: AgentChat.Progression): Outcome
  {
    if k >= |v.timers| then Outcome(chats, activeChat, v, [])
    else
      var t := v.timers[k];
      var rest := Without(v.timers, k);
      match t
      case InitialAppend(id, content, reply) =>
        Outcome(AppendMessage(chats, id, ChatMessage(msgId, content, now, false)), activeChat,
                v.(isTyping := false, timers := rest + [FirstReply(id, reply)]), [t])
      case FirstReply(id, reply) =>
        if reply.None? then Outcome(chats, activeChat, v.(timers := rest), [t])
        else
          Outcome(AppendMessage(chats, id, ChatMessage(msgId, reply.value, now, false)), activeChat,
                  v.(showInput := true, timers := rest), [t])
      case ReplyAppend(id, content, i) =>
        var v' := v.(isTyping := false, timers := rest);
        Outcome(AppendMessage(chats, id, ChatMessage(msgId, content, now, false)), activeChat,
                if mode == AgentChat.AsWritten then v'.(responseIndex := i) else v', [t])
  }

  /** One event. The input, and so a send, exists only while `showInput` is set. */
  function Handle(chats: seq<Chat>, activeChat: Option<string>, v: View, e: Event, resolve: string -> Template,
                  mode: AgentChat.Progression): Outcome
  {
    match e
    case EffectRuns => Outcome(chats, activeChat, Entry(chats, activeChat, v, resolve), [])
    case Select(id) => Outcome(chats, id, v, [])
    case UserSends(text, msgId, now) =>
      if v.showInput then Send(chats, activeChat, v, text, msgId, now, resolve, mode)
      else Outcome(chats, activeChat, v, [])
    case TimerFires(k, msgId, now) => Fire(chats, activeChat, v, k, msgId, now, mode)
  }

  function Run(chats: seq<Chat>, activeChat: Option<string>, v: View, events: seq<Event>,
               resolve: string -> Template, mode: AgentChat.Progression): Outcome
    decreases |events|
  {
    if events == [] then Outcome(chats, activeChat, v, [])
    else
      var s := Handle(chats, activeChat, v, events[0], resolve, mode);
      var r := Run(s.chats, s.activeChat, s.view, events[1..], resolve, mode);
      Outcome(r.chats, r.activeChat, r.view, s.fired + r.fired)
  }

  /** The steps animation shows while the active chat has no messages. */
  predicate ShowsSteps(chats: seq<Chat>, activeChat: Option<string>)
  {
    ActiveChat(chats, activeChat).Some? && |ActiveChat(chats, activeChat).value.messages| == 0
  }

  /** Support links show under the second message when it is the assistant's and the template has links. */
  predicate ShowsSupportLinks(chat: Chat, links: seq<SupportLink>)
  {
    |chat.messages| > 1 && !chat.messages[1].isUser && |links| > 0
  }

  /** The input shows once `showInput` is set, while there is an active chat. */
  predicate ShowsInput(chats: seq<Chat>, activeChat: Option<string>, v: View)
  {
    v.showInput && ActiveChat(chats, activeChat).Some?
  }

  function TitleOf(chats: seq<Chat>, id: string): Option<string>
  {
    match Find(chats, id)
    case None => None
    case Some(c) => Some(c.title)
  }

  lemma TitlesAfterAppend(chats: seq<Chat>, id: string, msg: ChatMessage)
    ensures forall x :: TitleOf(AppendMessage(chats, id, msg), x) == TitleOf(chats, x)
  {
    forall x ensures TitleOf(AppendMessage(chats, id, msg), x) == TitleOf(chats, x) {
      FindAfterAppend(chats, id, msg, x);
    }
  }

  /** A timer carries what the template of its chat's title says. */
  predicate Scripted(chats: seq<Chat>, t: Timer, resolve: string -> Template)
  {
    match TitleOf(chats, t.chatId)
    case None => false
    case Some(title) =>
      var tm := resolve(title);
      match t
      case InitialAppend(_, content, reply) => content == tm.initialMessage && reply == FirstScriptedReply(tm)
      case FirstReply(_, reply) => reply == FirstScriptedReply(tm)
      case ReplyAppend(_, content, i) => 1 <= i < |tm.responses| && content == tm.responses[i].assistant
  }

  /** How many times a schedule holds the initial message. */
  function Initials(log: seq<Timer>): nat
  {
    if log == [] then 0 else (if log[0].InitialAppend? then 1 else 0) + Initials(log[1..])
  }

  /** How many times a schedule holds the first reply. */
  function FirstReplies(log: seq<Timer>): nat
  {
    if log == [] then 0 else (if log[0].FirstReply? then 1 else 0) + FirstReplies(log[1..])
  }

  /** The script indices of the replies in a schedule, as a bag. */
  function ReplyBag(log: seq<Timer>): multiset<nat>
  {
    if log == [] then multiset{}
    else (if log[0].ReplyAppend? then multiset{log[0].index} else multiset{}) + ReplyBag(log[1..])
  }

  /** The bag {1, ..., n}. */
  function UpTo(n: nat): multiset<nat>
  {
    if n == 0 then multiset{} else UpTo(n - 1) + multiset{n}
  }

  lemma {:induction false} UpToOnce(n: nat)
    ensures forall i :: UpTo(n)[i] == if 1 <= i <= n then 1 else 0
  {
    if n > 0 {
      UpToOnce(n - 1);
    }
  }

  lemma {:induction false} InitialsAppend(a: seq<Timer>, b: seq<Timer>)
    ensures Initials(a + b) == Initials(a) + Initials(b)
  {
    if a == [] {
      assert a + b == b;
    } else {
      assert (a + b)[0] == a[0] && (a + b)[1..] == a[1..] + b;
      InitialsAppend(a[1..], b);
    }
  }

  lemma {:induction false} FirstRepliesAppend(a: seq<Timer>, b: seq<Timer>)
    ensures FirstReplies(a + b) == FirstReplies(a) + FirstReplies(b)
  {
    if a == [] {
      assert a + b == b;
    } else {
      assert (a + b)[0] == a[0] && (a + b)[1..] == a[1..] + b;
      FirstRepliesAppend(a[1..], b);
    }
  }

  lemma {:induction false} ReplyBagAppend(a: seq<Timer>, b: seq<Timer>)
    ensures ReplyBag(a + b) == ReplyBag(a) + ReplyBag(b)
  {
    if a == [] {
      assert a + b == b;
    } else {
      assert (a + b)[0] == a[0] && (a + b)[1..] == a[1..] + b;
      ReplyBagAppend(a[1..], b);
    }
  }

  lemma TalliesAppend(a: seq<Timer>, b: seq<Timer>)
    ensures Initials(a + b) == Initials(a) + Initials(b)
    ensures FirstReplies(a + b) == FirstReplies(a) + FirstReplies(b)
    ensures ReplyBag(a + b) == ReplyBag(a) + ReplyBag(b)
  {
    InitialsAppend(a, b);
    FirstRepliesAppend(a, b);
    ReplyBagAppend(a, b);
  }

  /** Taking the timer at `k` out of the pending list and putting it at the end keeps every tally. */
  lemma MoveToEnd(fired: seq<Timer>, timers: seq<Timer>, k: nat)
    requires k < |timers|
    ensures var moved := fired + [timers[k]] + Without(timers, k);
      && Initials(moved) == Initials(fired + timers)
      && FirstReplies(moved) == FirstReplies(fired + timers)
      && ReplyBag(moved) == ReplyBag(fired + timers)
      && forall x :: x in moved <==> x in fired + timers
  {
    var t, pre, post := timers[k], timers[..k], timers[k + 1..];
    assert timers == pre + [t] + post;
    assert fired + timers == (fired + pre) + ([t] + post);
    assert fired + [t] + Without(timers, k) == (fired + [t]) + (pre + post);
    TalliesAppend(fired + pre, [t] + post);
    TalliesAppend(fired, pre);
    TalliesAppend([t], post);
    TalliesAppend(fired + [t], pre + post);
    TalliesAppend(fired, [t]);
    TalliesAppend(pre, post);
  }

  /**
   * What holds of every schedule, where `fired + v.timers` holds every timer
   * scheduled so far: the index is 0 or below `cap`, which bounds every template's script, every
   * timer carries its chat's script, the initial message is scheduled at most
   * once and only after the guard is set, and the first reply at most once,
   * only after the initial message has landed.
   */
  ghost predicate Inv(chats: seq<Chat>, v: View, fired: seq<Timer>, resolve: string -> Template, cap: nat)
  {
    var log := fired + v.timers;
    && (v.responseIndex == 0 || v.responseIndex < cap)
    && AllScripted(chats, log, resolve)
    && Initials(log) <= 1
    && FirstReplies(log) <= Initials(fired)
    && (Initials(log) == 1 ==> v.initialMessagesAdded)
  }

  /**
   * What a step keeps: the invariant; the guard and `showInput`, once set,
   * stay set; and, when reserving, the replies scheduled are exactly the
   * script's lines 1 to `responseIndex`, each once.
   */
  ghost predicate Keeps(v: View, fired: seq<Timer>, s: Outcome, resolve: string -> Template, cap: nat,
                        mode: AgentChat.Progression)
  {
    && Inv(s.chats, s.view, fired + s.fired, resolve, cap)
    && (v.initialMessagesAdded ==> s.view.initialMessagesAdded)
    && (v.showInput ==> s.view.showInput)
    && (mode == AgentChat.Reserving && ReplyBag(fired + v.timers) == UpTo(v.responseIndex) ==>
          ReplyBag(fired + s.fired + s.view.timers) == UpTo(s.view.responseIndex))
  }

  ghost predicate AllScripted(chats: seq<Chat>, log: seq<Timer>, resolve: string -> Template)
  {
    forall t :: t in log ==> Scripted(chats, t, resolve)
  }

  /** Appending a message changes no timer's script. */
  lemma ScriptedAfterAppend(chats: seq<Chat>, id: string, msg: ChatMessage, log: seq<Timer>,
                            resolve: string -> Template)
    requires AllScripted(chats, log, resolve)
    ensures AllScripted(AppendMessage(chats, id, msg), log, resolve)
  {
    TitlesAfterAppend(chats, id, msg);
  }

  lemma AllScriptedSnoc(chats: seq<Chat>, log: seq<Timer>, t: Timer, resolve: string -> Template)
    requires AllScripted(chats, log, resolve) && Scripted(chats, t, resolve)
    ensures AllScripted(chats, log + [t], resolve)
  {
  }

  lemma Singleton(t: Timer)
    ensures Initials([t]) == if t.InitialAppend? then 1 else 0
    ensures FirstReplies([t]) == if t.FirstReply? then 1 else 0
    ensures ReplyBag([t]) == if t.ReplyAppend? then multiset{t.index} else multiset{}
  {
    assert [t][1..] == [];
  }

  /** The active chat, when there is one, is found under its own id and titled as stored. */
  lemma ActiveTitle(chats: seq<Chat>, activeChat: Option<string>)
    requires ActiveChat(chats, activeChat).Some?
    ensures var chat := ActiveChat(chats, activeChat).value;
      TitleOf(chats, chat.id) == Some(chat.title)
  {
    FindFirst(chats, activeChat.value);
  }

  lemma EntryKeeps(chats: seq<Chat>, activeChat: Option<string>, v: View, fired: seq<Timer>,
                   resolve: string -> Template, cap: nat, mode: AgentChat.Progression)
    requires Inv(chats, v, fired, resolve, cap)
    ensures Keeps(v, fired, Outcome(chats, activeChat, Entry(chats, activeChat, v, resolve), []), resolve, cap, mode)
  {
    assert fired + [] == fired;
    var v' := Entry(chats, activeChat, v, resolve);
    if ActiveChat(chats, activeChat).Some? {
      var chat := ActiveChat(chats, activeChat).value;
      if |chat.messages| == 0 && !v.initialMessagesAdded {
        var tm := resolve(chat.title);
        var timer := InitialAppend(chat.id, tm.initialMessage, FirstScriptedReply(tm));
        assert v' == v.(initialMessagesAdded := true, isTyping := true, timers := v.timers + [timer]);
        ActiveTitle(chats, activeChat);
        AllScriptedSnoc(chats, fired + v.timers, timer, resolve);
        assert fired + v'.timers == (fired + v.timers) + [timer];
        TalliesAppend(fired + v.timers, [timer]);
        Singleton(timer);
      }
    }
  }

  /** Appending a message keeps the invariant and every chat's title. */
  lemma InvAfterAppend(chats: seq<Chat>, id: string, msg: ChatMessage, v: View, fired: seq<Timer>,
                       resolve: string -> Template, cap: nat)
    requires Inv(chats, v, fired, resolve, cap)
    ensures Inv(AppendMessage(chats, id, msg), v, fired, resolve, cap)
    ensures forall x :: TitleOf(AppendMessage(chats, id, msg), x) == TitleOf(chats, x)
  {
    ScriptedAfterAppend(chats, id, msg, fired + v.timers, resolve);
    TitlesAfterAppend(chats, id, msg);
  }

  /** Scheduling one more scripted reply keeps the invariant and adds its index to the bag. */
  lemma ScheduleKeeps(chats: seq<Chat>, v: View, v': View, fired: seq<Timer>, timer: Timer,
                      resolve: string -> Template, cap: nat)
    requires Inv(chats, v, fired, resolve, cap)
    requires timer.ReplyAppend? && Scripted(chats, timer, resolve)
    requires v'.timers == v.timers + [timer] && v'.initialMessagesAdded == v.initialMessagesAdded
    requires v'.responseIndex == 0 || v'.responseIndex < cap
    ensures Inv(chats, v', fired, resolve, cap)
    ensures ReplyBag(fired + v'.timers) == ReplyBag(fired + v.timers) + multiset{timer.index}
  {
    AllScriptedSnoc(chats, fired + v.timers, timer, resolve);
    assert fired + v'.timers == (fired + v.timers) + [timer];
    TalliesAppend(fired + v.timers, [timer]);
    Singleton(timer);
  }

  /** A send that schedules the reply at `responseIndex + 1`. */
  lemma SendScheduledKeeps(chats: seq<Chat>, activeChat: Option<string>, v: View, fired: seq<Timer>,
                           text: string, msgId: string, now: int, resolve: string -> Template, cap: nat,
                           mode: AgentChat.Progression)
    requires Inv(chats, v, fired, resolve, cap)
    requires forall title :: |resolve(title).responses| <= cap
    requires ActiveChat(chats, activeChat).Some?
    requires v.responseIndex + 1 < |resolve(ActiveChat(chats, activeChat).value.title).responses|
    ensures Keeps(v, fired, Send(chats, activeChat, v, text, msgId, now, resolve, mode), resolve, cap, mode)
  {
    var chat := ActiveChat(chats, activeChat).value;
    var msg := ChatMessage(msgId, text, now, true);
    var chats' := AppendMessage(chats, chat.id, msg);
    var next := v.responseIndex + 1;
    var tm := resolve(chat.title);
    var timer := ReplyAppend(chat.id, tm.responses[next].assistant, next);
    var v1 := v.(isTyping := true, timers := v.timers + [timer]);
    var v' := if mode == AgentChat.Reserving then v1.(responseIndex := next) else v1;
    assert Send(chats, activeChat, v, text, msgId, now, resolve, mode) == Outcome(chats', activeChat, v', []);
    assert fired + [] == fired;
    ActiveTitle(chats, activeChat);
    InvAfterAppend(chats, chat.id, msg, v, fired, resolve, cap);
    assert Scripted(chats', timer, resolve);
    ScheduleKeeps(chats', v, v', fired, timer, resolve, cap);
  }

  lemma SendKeeps(chats: seq<Chat>, activeChat: Option<string>, v: View, fired: seq<Timer>, text: string,
                  msgId: string, now: int, resolve: string -> Template, cap: nat, mode: AgentChat.Progression)
    requires Inv(chats, v, fired, resolve, cap)
    requires forall title :: |resolve(title).responses| <= cap
    ensures Keeps(v, fired, Send(chats, activeChat, v, text, msgId, now, resolve, mode), resolve, cap, mode)
  {
    assert fired + [] == fired;
    if ActiveChat(chats, activeChat).Some? {
      var chat := ActiveChat(chats, activeChat).value;
      if v.responseIndex + 1 < |resolve(chat.title).responses| {
        SendScheduledKeeps(chats, activeChat, v, fired, text, msgId, now, resolve, cap, mode);
      } else {
        var msg := ChatMessage(msgId, text, now, true);
        assert Send(chats, activeChat, v, text, msgId, now, resolve, mode)
          == Outcome(AppendMessage(chats, chat.id, msg), activeChat, v, []);
        ScriptedAfterAppend(chats, chat.id, msg, fired + v.timers, resolve);
      }
    }
  }

  lemma FireInitialKeeps(chats: seq<Chat>, activeChat: Option<string>, v: View, fired: seq<Timer>, k: nat,
                         msgId: string, now: int, resolve: string -> Template, cap: nat, mode: AgentChat.Progression)
    requires Inv(chats, v, fired, resolve, cap)
    requires k < |v.timers| && v.timers[k].InitialAppend?
    ensures Keeps(v, fired, Fire(chats, activeChat, v, k, msgId, now, mode), resolve, cap, mode)
  {
    var t := v.timers[k];
    var rest := Without(v.timers, k);
    var msg := ChatMessage(msgId, t.content, now, false);
    var fr := FirstReply(t.chatId, t.reply);
    assert Fire(chats, activeChat, v, k, msgId, now, mode)
      == Outcome(AppendMessage(chats, t.chatId, msg), activeChat, v.(isTyping := false, timers := rest + [fr]), [t]);
    MoveToEnd(fired, v.timers, k);
    var moved := fired + [t] + rest;
    assert fired + [t] + (rest + [fr]) == moved + [fr];
    assert t in fired + v.timers;
    assert Scripted(chats, fr, resolve);
    AllScriptedSnoc(chats, moved, fr, resolve);
    ScriptedAfterAppend(chats, t.chatId, msg, moved + [fr], resolve);
    TalliesAppend(moved, [fr]);
    TalliesAppend(fired, [t]);
    Singleton(t);
    Singleton(fr);
  }

  lemma FireFirstReplyKeeps(chats: seq<Chat>, activeChat: Option<string>, v: View, fired: seq<Timer>, k: nat,
                            msgId: string, now: int, resolve: string -> Template, cap: nat,
                            mode: AgentChat.Progression)
    requires Inv(chats, v, fired, resolve, cap)
    requires k < |v.timers| && v.timers[k].FirstReply?
    ensures Keeps(v, fired, Fire(chats, activeChat, v, k, msgId, now, mode), resolve, cap, mode)
  {
    var t := v.timers[k];
    var rest := Without(v.timers, k);
    MoveToEnd(fired, v.timers, k);
    var moved := fired + [t] + rest;
    TalliesAppend(fired, [t]);
    Singleton(t);
    if t.reply.Some? {
      var msg := ChatMessage(msgId, t.reply.value, now, false);
      assert Fire(chats, activeChat, v, k, msgId, now, mode)
        == Outcome(AppendMessage(chats, t.chatId, msg), activeChat, v.(showInput := true, timers := rest), [t]);
      ScriptedAfterAppend(chats, t.chatId, msg, moved, resolve);
    } else {
      assert Fire(chats, activeChat, v, k, msgId, now, mode) == Outcome(chats, activeChat, v.(timers := rest), [t]);
    }
  }

  lemma FireReplyKeeps(chats: seq<Chat>, activeChat: Option<string>, v: View, fired: seq<Timer>, k: nat,
                       msgId: string, now: int, resolve: string -> Template, cap: nat, mode: AgentChat.Progression)
    requires Inv(chats, v, fired, resolve, cap)
    requires forall title :: |resolve(title).responses| <= cap
    requires k < |v.timers| && v.timers[k].ReplyAppend?
    ensures Keeps(v, fired, Fire(chats, activeChat, v, k, msgId, now, mode), resolve, cap, mode)
  {
    var t := v.timers[k];
    var rest := Without(v.timers, k);
    var msg := ChatMessage(msgId, t.content, now, false);
    var v1 := v.(isTyping := false, timers := rest);
    var v' := if mode == AgentChat.AsWritten then v1.(responseIndex := t.index) else v1;
    assert Fire(chats, activeChat, v, k, msgId, now, mode) == Outcome(AppendMessage(chats, t.chatId, msg), activeChat, v', [t]);
    MoveToEnd(fired, v.timers, k);
    var moved := fired + [t] + rest;
    assert t in fired + v.timers;
    assert Scripted(chats, t, resolve);
    ScriptedAfterAppend(chats, t.chatId, msg, moved, resolve);
    TalliesAppend(fired, [t]);
    Singleton(t);
  }

  lemma FireKeeps(chats: seq<Chat>, activeChat: Option<string>, v: View, fired: seq<Timer>, k: nat,
                  msgId: string, now: int, resolve: string -> Template, cap: nat, mode: AgentChat.Progression)
    requires Inv(chats, v, fired, resolve, cap)
    requires forall title :: |resolve(title).responses| <= cap
    ensures Keeps(v, fired, Fire(chats, activeChat, v, k, msgId, now, mode), resolve, cap, mode)
  {
    if k >= |v.timers| {
      assert fired + [] == fired;
    } else if v.timers[k].InitialAppend? {
      FireInitialKeeps(chats, activeChat, v, fired, k, msgId, now, resolve, cap, mode);
    } else if v.timers[k].FirstReply? {
      FireFirstReplyKeeps(chats, activeChat, v, fired, k, msgId, now, resolve, cap, mode);
    } else {
      FireReplyKeeps(chats, activeChat, v, fired, k, msgId, now, resolve, cap, mode);
    }
  }

  lemma HandleKeeps(chats: seq<Chat>, activeChat: Option<string>, v: View, fired: seq<Timer>, e: Event,
                    resolve: string -> Template, cap: nat, mode: AgentChat.Progression)
    requires Inv(chats, v, fired, resolve, cap)
    requires forall title :: |resolve(title).responses| <= cap
    ensures Keeps(v, fired, Handle(chats, activeChat, v, e, resolve, mode), resolve, cap, mode)
  {
    match e
    case EffectRuns => EntryKeeps(chats, activeChat, v, fired, resolve, cap, mode);
    case Select(_) => assert fired + [] == fired;
    case UserSends(text, msgId, now) =>
      if v.showInput {
        SendKeeps(chats, activeChat, v, fired, text, msgId, now, resolve, cap, mode);
      } else {
        assert fired + [] == fired;
      }
    case TimerFires(k, msgId, now) => FireKeeps(chats, activeChat, v, fired, k, msgId, now, resolve, cap, mode);
  }

  /** Two steps that each keep the invariant keep it together. */
  lemma KeepsCompose(v: View, fired: seq<Timer>, s: Outcome, r: Outcome, resolve: string -> Template, cap: nat,
                     mode: AgentChat.Progression)
    requires Keeps(v, fired, s, resolve, cap, mode)
    requires Keeps(s.view, fired + s.fired, r, resolve, cap, mode)
    ensures Keeps(v, fired, Outcome(r.chats, r.activeChat, r.view, s.fired + r.fired), resolve, cap, mode)
  {
    assert fired + s.fired + r.fired == fired + (s.fired + r.fired);
  }

  /** The invariant, and the guard and `showInput` once set, survive any sequence of events. */
  lemma {:induction false} RunKeeps(chats: seq<Chat>, activeChat: Option<string>, v: View, fired: seq<Timer>,
                                    events: seq<Event>, resolve: string -> Template, cap: nat,
                                    mode: AgentChat.Progression)
    requires Inv(chats, v, fired, resolve, cap)
    requires forall title :: |resolve(title).responses| <= cap
    ensures Keeps(v, fired, Run(chats, activeChat, v, events, resolve, mode), resolve, cap, mode)
    decreases |events|
  {
    if events == [] {
      assert fired + [] == fired;
    } else {
      var s := Handle(chats, activeChat, v, events[0], resolve, mode);
      HandleKeeps(chats, activeChat, v, fired, events[0], resolve, cap, mode);
      RunKeeps(s.chats, s.activeChat, s.view, fired + s.fired, events[1..], resolve, cap, mode);
      KeepsCompose(v, fired, s, Run(s.chats, s.activeChat, s.view, events[1..], resolve, mode), resolve, cap, mode);
    }
  }

  /**
   * From a freshly mounted component, with every template holding at most
   * `cap` responses, under any sequence of its own effect runs, sends, timer
   * callbacks and chat selections: the initial message and the first reply
   * are each scheduled at most once, the index is 0 or below `cap`, and
   * every scheduled message is its chat's scripted text.
   */
  lemma MountedRun(chats: seq<Chat>, activeChat: Option<string>, events: seq<Event>,
                   resolve: string -> Template, cap: nat, mode: AgentChat.Progression)
    requires forall title :: |resolve(title).responses| <= cap
    ensures var r := Run(chats, activeChat, Mounted, events, resolve, mode);
      var log := r.fired + r.view.timers;
      && Initials(log) <= 1 && FirstReplies(log) <= 1
      && (r.view.responseIndex == 0 || r.view.responseIndex < cap)
      && forall t :: t in log ==> Scripted(r.chats, t, resolve)
  {
    RunKeeps(chats, activeChat, Mounted, [], events, resolve, cap, mode);
    var r := Run(chats, activeChat, Mounted, events, resolve, mode);
    assert [] + r.fired == r.fired;
    TalliesAppend(r.fired, r.view.timers);
  }

  /**
   * Corrected: with the index reserved when the reply is scheduled, the
   * replies scheduled over the component's life are the script's lines 1 to
   * `responseIndex`, each exactly once.
   */
  lemma ReservedRepliesOnce(chats: seq<Chat>, activeChat: Option<string>, events: seq<Event>,
                            resolve: string -> Template, cap: nat)
    requires forall title :: |resolve(title).responses| <= cap
    ensures var r := Run(chats, activeChat, Mounted, events, resolve, AgentChat.Reserving);
      && ReplyBag(r.fired + r.view.timers) == UpTo(r.view.responseIndex)
      && forall i :: ReplyBag(r.fired + r.view.timers)[i] == if 1 <= i <= r.view.responseIndex then 1 else 0
  {
    RunKeeps(chats, activeChat, Mounted, [], events, resolve, cap, AgentChat.Reserving);
    var r := Run(chats, activeChat, Mounted, events, resolve, AgentChat.Reserving);
    assert [] + r.fired == r.fired;
    assert ReplyBag([]) == UpTo(0);
    UpToOnce(r.view.responseIndex);
  }

  /**
   * `handleSendMessage`, for every store, index and progression: with no
   * active chat nothing happens. Otherwise the user's message is appended to
   * the active chat at once, and exactly when the script has a line at
   * `responseIndex + 1` that line's reply is scheduled for the chat; as
   * written the index stays put, and without such a line the view is as it
   * was.
   */
  lemma SendEffect(chats: seq<Chat>, activeChat: Option<string>, v: View, text: string, msgId: string,
                   now: int, resolve: string -> Template, mode: AgentChat.Progression)
    ensures var o := Send(chats, activeChat, v, text, msgId, now, resolve, mode);
      && o.activeChat == activeChat && o.fired == []
      && (ActiveChat(chats, activeChat).None? ==> o == Outcome(chats, activeChat, v, []))
      && (ActiveChat(chats, activeChat).Some? ==>
           var chat := ActiveChat(chats, activeChat).value;
           var msg := ChatMessage(msgId, text, now, true);
           var t := resolve(chat.title);
           var next := v.responseIndex + 1;
           && chat.id == activeChat.value
           && o.chats == AppendMessage(chats, chat.id, msg)
           && Find(o.chats, chat.id) == Some(chat.(messages := chat.messages + [msg]))
           && o.view.timers == v.timers + (if next < |t.responses|
                                           then [ReplyAppend(chat.id, t.responses[next].assistant, next)] else [])
           && o.view.responseIndex == (if mode == AgentChat.Reserving && next < |t.responses|
                                       then next else v.responseIndex)
           && o.view.isTyping == (v.isTyping || next < |t.responses|)
           && o.view.showInput == v.showInput && o.view.initialMessagesAdded == v.initialMessagesAdded)
  {
    if ActiveChat(chats, activeChat).Some? {
      var chat := ActiveChat(chats, activeChat).value;
      FindFirst(chats, activeChat.value);
      FindAfterAppend(chats, chat.id, ChatMessage(msgId, text, now, true), chat.id);
    }
  }

  lemma SendAtIndexZero(c: Chat, typing: bool, timers: seq<Timer>, text: string, msgId: string, now: int,
                        resolve: string -> Template)
    requires |resolve(c.title).responses| > 1
    ensures Handle([c], Some(c.id), View(0, true, typing, true, timers), UserSends(text, msgId, now), resolve,
                   AgentChat.AsWritten)
      == Outcome([c.(messages := c.messages + [ChatMessage(msgId, text, now, true)])], Some(c.id),
                 View(0, true, true, true, timers + [ReplyAppend(c.id, resolve(c.title).responses[1].assistant, 1)]),
                 [])
  {
    AgentChat.OnlyChat(c, ChatMessage(msgId, text, now, true));
  }

  lemma FireSecondReply(c: Chat, timer: Timer, rest: seq<Timer>, typing: bool, index: nat, msgId: string,
                        now: int, resolve: string -> Template)
    requires timer.ReplyAppend? && timer.chatId == c.id && timer.index == 1
    ensures Handle([c], Some(c.id), View(index, true, typing, true, [timer] + rest), TimerFires(0, msgId, now),
                   resolve, AgentChat.AsWritten)
      == Outcome([c.(messages := c.messages + [ChatMessage(msgId, timer.content, now, false)])], Some(c.id),
                 View(1, true, false, true, rest), [timer])
  {
    AgentChat.OnlyChat(c, ChatMessage(msgId, timer.content, now, false));
    assert Without([timer] + rest, 0) == rest;
  }

  /**
   * As written, two messages sent before the reply lands both get the reply
   * at `responseIndex + 1`: in a store holding one chat whose opening turn is
   * done, the trace below ends with `responses[1]` in the chat twice and the
   * index only at 1.
   */
  lemma DuplicateReplyAsWritten(resolve: string -> Template, c: Chat, a: string, b: string,
                                id0: string, id1: string, id2: string, id3: string, now: int)
    requires |resolve(c.title).responses| > 1
    ensures var t := ReplyAppend(c.id, resolve(c.title).responses[1].assistant, 1);
      var c1 := c.(messages := c.messages + [ChatMessage(id0, a, now, true)]);
      var c2 := c.(messages := c1.messages + [ChatMessage(id1, b, now, true)]);
      var c3 := c.(messages := c2.messages + [ChatMessage(id2, t.content, now, false)]);
      var c4 := c.(messages := c3.messages + [ChatMessage(id3, t.content, now, false)]);
      var active := Some(c.id);
      && Handle([c], active, View(0, true, false, true, []), UserSends(a, id0, now), resolve, AgentChat.AsWritten)
         == Outcome([c1], active, View(0, true, true, true, [t]), [])
      && Handle([c1], active, View(0, true, true, true, [t]), UserSends(b, id1, now), resolve, AgentChat.AsWritten)
         == Outcome([c2], active, View(0, true, true, true, [t, t]), [])
      && Handle([c2], active, View(0, true, true, true, [t, t]), TimerFires(0, id2, now), resolve, AgentChat.AsWritten)
         == Outcome([c3], active, View(1, true, false, true, [t]), [t])
      && Handle([c3], active, View(1, true, false, true, [t]), TimerFires(0, id3, now), resolve, AgentChat.AsWritten)
         == Outcome([c4], active, View(1, true, false, true, []), [t])
  {
    var t := ReplyAppend(c.id, resolve(c.title).responses[1].assistant, 1);
    var c1 := c.(messages := c.messages + [ChatMessage(id0, a, now, true)]);
    var c2 := c.(messages := c1.messages + [ChatMessage(id1, b, now, true)]);
    var c3 := c.(messages := c2.messages + [ChatMessage(id2, t.content, now, false)]);
    SendAtIndexZero(c, false, [], a, id0, now, resolve);
    assert [] + [t] == [t];
    SendAtIndexZero(c1, true, [t], b, id1, now, resolve);
    assert [t] + [t] == [t, t];
    FireSecondReply(c2, t, [t], true, 0, id2, now, resolve);
    FireSecondReply(c3, t, [], false, 1, id3, now, resolve);
    assert [t] + [] == [t];
  }

  /**
   * The opening turn of an empty chat: once the initial message and then the
   * first reply have landed, the steps are gone, the input shows, and the
   * second message is the assistant's, so the support links show.
   */
  lemma OpeningTurn(c: Chat, resolve: string -> Template, id0: string, id1: string, now: int)
    requires c.messages == [] && |resolve(c.title).responses| > 0
    ensures var active := Some(c.id);
      var o0 := Handle([c], active, Mounted, EffectRuns, resolve, AgentChat.AsWritten);
      var o1 := Handle(o0.chats, active, o0.view, TimerFires(0, id0, now), resolve, AgentChat.AsWritten);
      var o2 := Handle(o1.chats, active, o1.view, TimerFires(0, id1, now), resolve, AgentChat.AsWritten);
      && ShowsSteps(o0.chats, active) && !ShowsInput(o0.chats, active, o0.view)
      && !ShowsSteps(o2.chats, active) && ShowsInput(o2.chats, active, o2.view)
      && o2.chats == [c.(messages := [ChatMessage(id0, resolve(c.title).initialMessage, now, false),
                                       ChatMessage(id1, resolve(c.title).responses[0].assistant, now, false)])]
      && (|resolve(c.title).supportLinks| > 0 ==> ShowsSupportLinks(o2.chats[0], resolve(c.title).supportLinks))
  {
    var tm := resolve(c.title);
    var m0 := ChatMessage(id0, tm.initialMessage, now, false);
    var m1 := ChatMessage(id1, tm.responses[0].assistant, now, false);
    var init := InitialAppend(c.id, tm.initialMessage, Some(tm.responses[0].assistant));
    AgentChat.OnlyChat(c, m0);
    AgentChat.OnlyChat(c.(messages := [m0]), m1);
    assert [] + [init] == [init] && [] + [m0] == [m0] && [m0] + [m1] == [m0, m1];
    assert Without([init], 0) == [];
    assert Without([FirstReply(c.id, Some(tm.responses[0].assistant))], 0) == [];
    assert [] + [FirstReply(c.id, Some(tm.responses[0].assistant))] == [FirstReply(c.id, Some(tm.responses[0].assistant))];
  }

  /** Firing a timer writes to the chat it was scheduled for, whichever chat is active now. */
  lemma FireTargetsScheduledChat(chats: seq<Chat>, activeChat: Option<string>, v: View, k: nat, msgId: string,
                                 now: int, mode: AgentChat.Progression)
    requires k < |v.timers| && !(v.timers[k].FirstReply? && v.timers[k].reply.None?)
    ensures var t := v.timers[k];
      var text := match t
        case InitialAppend(_, content, _) => content
        case FirstReply(_, reply) => reply.value
        case ReplyAppend(_, content, _) => content;
      var o := Fire(chats, activeChat, v, k, msgId, now, mode);
      && o.chats == AppendMessage(chats, t.chatId, ChatMessage(msgId, text, now, false))
      && o.activeChat == activeChat && o.fired == [t]
  {
  }

  class ChatTimelineView {
    const store: Store
    var responseIndex: nat
    var showInput: bool
    var isTyping: bool
    var initialMessagesAdded: bool
    var timers: seq<Timer>

    function State(): View
      reads this
    {
      View(responseIndex, showInput, isTyping, initialMessagesAdded, timers)
    }

    constructor (store: Store)
      ensures this.store == store && State() == Mounted
    {
      this.store := store;
      responseIndex := 0;
      showInput := false;
      isTyping := false;
      initialMessagesAdded := false;
      timers := [];
    }

    /** The effect, run whenever the active chat or its template changes. */
    method RunEffect()
      modifies this
      ensures State() == Entry(store.chats, store.activeChat, old(State()), GetChatResponseByTask)
    {
      var chat := ActiveChat(store.chats, store.activeChat);
      if chat.None? {
        return;
      }
      var template := GetChatResponseByTask(chat.value.title);
      if |chat.value.messages| == 0 && !initialMessagesAdded {
        initialMessagesAdded := true;
        isTyping := true;
        timers := timers + [InitialAppend(chat.value.id, template.initialMessage, FirstScriptedReply(template))];
      } else if |chat.value.messages| > 0 && !showInput {
        showInput := true;
      }
    }

    method HandleSendMessage(message: string, msgId: string, now: int)
      modifies this, store
      ensures var o := Send(old(store.chats), old(store.activeChat), old(State()), message, msgId, now,
                            GetChatResponseByTask, AgentChat.AsWritten);
        store.chats == o.chats && store.activeChat == o.activeChat && State() == o.view
    {
      var chat := ActiveChat(store.chats, store.activeChat);
      if chat.None? {
        return;
      }
      store.AddMessage(chat.value.id, message, now, true, msgId);
      var nextResponseIndex := responseIndex + 1;
      var template := GetChatResponseByTask(chat.value.title);
      if nextResponseIndex < |template.responses| {
        isTyping := true;
        timers := timers + [ReplyAppend(chat.value.id, template.responses[nextResponseIndex].assistant,
                                        nextResponseIndex)];
      }
    }

    /** The pending callback at `k` runs. */
    method FireTimer(k: nat, msgId: string, now: int)
      modifies this, store
      ensures var o := Fire(old(store.chats), old(store.activeChat), old(State()), k, msgId, now,
                            AgentChat.AsWritten);
        store.chats == o.chats && store.activeChat == o.activeChat && State() == o.view
    {
      if k >= |timers| {
        return;
      }
      var t := timers[k];
      timers := Without(timers, k);
      match t {
        case InitialAppend(id, content, reply) =>
          store.AddMessage(id, content, now, false, msgId);
          isTyping := false;
          timers := timers + [FirstReply(id, reply)];
        case FirstReply(id, reply) =>
          if reply.Some? {
            store.AddMessage(id, reply.value, now, false, msgId);
            showInput := true;
          }
        case ReplyAppend(id, content, i) =>
          store.AddMessage(id, content, now, false, msgId);
          responseIndex := i;
          isTyping := false;
      }
    }
  }
}
