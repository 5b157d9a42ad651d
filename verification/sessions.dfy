/**
 Sequences of requests against the one shared state: the dispatcher over
 the six routes, runs of requests, and what holds of every run.
 */
module Sessions {
  import opened PyText
  import opened Upstream
  import opened Memory
  import opened Handlers

  /** A request to one of the modelled routes, with its JSON body. */
  datatype Request =
    | AskReq(data: JsonObject)
    | TasksReq(data: JsonObject)
    | EmailReq(data: JsonObject)
    | XpReq(data: JsonObject)
    | HistoryReq
    | ClearReq

  /** One request as it is served: what the upstream service answers while
      it is handled, and the clock reading it sees. */
  datatype Event = Event(req: Request, up: Oracle, now: Timestamp)

  /** Serves one request. */
  function Handle(cfg: Config, m: State, ev: Event): Step {
    match ev.req
    case AskReq(data) => Ask(m, data, ev.up, ev.now)
    case TasksReq(data) => CreateTasks(cfg, m, data, ev.up, ev.now)
    case EmailReq(data) => DraftEmail(cfg, m, data, ev.up, ev.now)
    case XpReq(data) => XpUpdate(m, data)
    case HistoryReq => GetHistory(m)
    case ClearReq => ClearHistory(m)
  }

  /** The state after serving `evs` one after another, starting from `m`. */
  function Run(cfg: Config, m: State, evs: seq<Event>): State
    decreases |evs|
  {
    if evs == [] then m else Run(cfg, Handle(cfg, m, evs[0]).state, evs[1..])
  }

  /** The experience one request awards: its gain if it is an XP request. */
  function EventGain(ev: Event): int {
    match ev.req
    case XpReq(data) => Gain(Action(data))
    case _ => 0
  }

  /** The experience the XP requests among `evs` award, in total. */
  function XpEarned(evs: seq<Event>): int
    decreases |evs|
  {
    if evs == [] then 0 else EventGain(evs[0]) + XpEarned(evs[1..])
  }

  /** Only an XP request moves the counter, by exactly its gain. */
  lemma HandleXp(cfg: Config, m: State, ev: Event)
    ensures Handle(cfg, m, ev).state.xp == m.xp + EventGain(ev)
  {
    match ev.req
    case AskReq(_) =>
    case TasksReq(_) =>
    case EmailReq(_) =>
    case XpReq(_) =>
    case HistoryReq =>
    case ClearReq =>
  }

  /** The counter moves only on XP requests, by exactly their gains. */
  lemma {:induction false} RunXp(cfg: Config, m: State, evs: seq<Event>)
    ensures Run(cfg, m, evs).xp == m.xp + XpEarned(evs)
    decreases |evs|
  {
    if evs != [] {
      var m1 := Handle(cfg, m, evs[0]).state;
      HandleXp(cfg, m, evs[0]);
      RunXp(cfg, m1, evs[1..]);
      assert Run(cfg, m, evs) == Run(cfg, m1, evs[1..]);
    }
  }

  /** Every request awards a positive gain or none. */
  lemma {:induction false} XpEarnedNonNegative(evs: seq<Event>)
    ensures XpEarned(evs) >= 0
    decreases |evs|
  {
    if evs != [] {
      assert EventGain(evs[0]) >= 0;
      XpEarnedNonNegative(evs[1..]);
    }
  }

  /** From the start state the counter never drops below its initial 500. */
  lemma XpNeverBelowInitial(cfg: Config, evs: seq<Event>)
    ensures Run(cfg, Initial, evs).xp >= InitialXp
  {
    RunXp(cfg, Initial, evs);
    XpEarnedNonNegative(evs);
  }

  /** No request in `evs` clears the history. */
  predicate NoClear(evs: seq<Event>) {
    forall i :: 0 <= i < |evs| ==> !evs[i].req.ClearReq?
  }

  /** A run without a clear stays without one after its first request. */
  lemma NoClearTail(evs: seq<Event>)
    requires evs != [] && NoClear(evs)
    ensures NoClear(evs[1..])
  {
    forall i | 0 <= i < |evs[1..]| ensures !evs[1..][i].req.ClearReq? {
      assert evs[1..][i] == evs[i + 1];
    }
  }

  /** Any request but a clear keeps each log as a prefix of its next value. */
  lemma HandleExtendsLogs(cfg: Config, m: State, ev: Event)
    requires !ev.req.ClearReq?
    ensures var h := Handle(cfg, m, ev).state.history;
      && m.history.chats <= h.chats
      && m.history.tasks <= h.tasks
      && m.history.emails <= h.emails
  {
    match ev.req
    case AskReq(_) =>
    case TasksReq(_) =>
    case EmailReq(_) =>
    case XpReq(_) =>
    case HistoryReq =>
  }

  /** Without a clear, each log of `m` is a prefix of the same log later:
      entries are only ever appended. */
  lemma {:induction false} LogsAppendOnly(cfg: Config, m: State, evs: seq<Event>)
    requires NoClear(evs)
    ensures var h := Run(cfg, m, evs).history;
      && m.history.chats <= h.chats
      && m.history.tasks <= h.tasks
      && m.history.emails <= h.emails
    decreases |evs|
  {
    if evs != [] {
      var m1 := Handle(cfg, m, evs[0]).state;
      HandleExtendsLogs(cfg, m, evs[0]);
      NoClearTail(evs);
      LogsAppendOnly(cfg, m1, evs[1..]);
      assert Run(cfg, m, evs) == Run(cfg, m1, evs[1..]);
    }
  }

  /** The chat records one request logs: only a chat request logs any. */
  function ChatsLogged(ev: Event): seq<ChatRecord> {
    match ev.req
    case AskReq(data) => ChatLogged(data, ev.up, ev.now)
    case _ => []
  }

  /** Any request but a clear appends to the chat log exactly the records
      it logs, whatever the state: at most one. */
  lemma HandleAppendsChats(cfg: Config, m: State, ev: Event)
    requires !ev.req.ClearReq?
    ensures |ChatsLogged(ev)| <= 1
    ensures Handle(cfg, m, ev).state.history.chats == m.history.chats + ChatsLogged(ev)
  {
    match ev.req
    case AskReq(_) =>
      AskLogs(m, ev.req.data, ev.up, ev.now);
    case TasksReq(_) =>
    case EmailReq(_) =>
    case XpReq(_) =>
    case HistoryReq =>
  }

  /** All chat records the requests of `evs` log, in order. */
  function AllChatsLogged(evs: seq<Event>): seq<ChatRecord>
    decreases |evs|
  {
    if evs == [] then [] else ChatsLogged(evs[0]) + AllChatsLogged(evs[1..])
  }

  /** Without a clear, the chat log is the earlier log followed by every
      chat record logged since, in order. */
  lemma {:induction false} RunChats(cfg: Config, m: State, evs: seq<Event>)
    requires NoClear(evs)
    ensures Run(cfg, m, evs).history.chats == m.history.chats + AllChatsLogged(evs)
    decreases |evs|
  {
    if evs != [] {
      var m1 := Handle(cfg, m, evs[0]).state;
      var first := ChatsLogged(evs[0]);
      var rest := AllChatsLogged(evs[1..]);
      assert !evs[0].req.ClearReq?;
      HandleAppendsChats(cfg, m, evs[0]);
      assert m1.history.chats == m.history.chats + first;
      NoClearTail(evs);
      RunChats(cfg, m1, evs[1..]);
      assert Run(cfg, m, evs) == Run(cfg, m1, evs[1..]);
      assert AllChatsLogged(evs) == first + rest;
      ConcatAssoc(m.history.chats, first, rest);
    }
  }

  lemma ConcatAssoc<T>(a: seq<T>, b: seq<T>, c: seq<T>)
    ensures (a + b) + c == a + (b + c)
  {
  }

  /** A history read after at least `HistoryLimit` appended entries shows
      exactly the newest `HistoryLimit` of them, oldest first. */
  lemma RecentOfLongTail<T>(old_: seq<T>, added: seq<T>)
    requires |added| >= HistoryLimit
    ensures Recent(old_ + added) == added[|added| - HistoryLimit..]
  {
    var log := old_ + added;
    var r := Recent(log);
    assert log[|log| - |r|..] == r;
    assert log[|log| - HistoryLimit..] == added[|added| - HistoryLimit..];
  }

  /** After a run without a clear that logs at least `HistoryLimit` chats,
      the history read shows exactly the last `HistoryLimit` chats of the
      run, oldest first. */
  lemma RecentChatsAfterRun(cfg: Config, m: State, evs: seq<Event>)
    requires NoClear(evs)
    requires |AllChatsLogged(evs)| >= HistoryLimit
    ensures var logged := AllChatsLogged(evs);
      GetHistory(Run(cfg, m, evs)).response.body.recentChats
        == logged[|logged| - HistoryLimit..]
  {
    RunChats(cfg, m, evs);
    RecentOfLongTail(m.history.chats, AllChatsLogged(evs));
  }

  /** The process starts with 500 experience points, no last chat or task
      list, and three empty logs, so a first history read shows nothing. */
  lemma FreshStart()
    ensures Initial.xp == 500 && Initial.lastChat.None? && Initial.lastTasks.None?
    ensures GetHistory(Initial).response == Response(200, HistoryView([], [], []))
  {
  }

  /** A history read right after a clear shows three empty logs. */
  lemma ClearThenRead(m: State)
    ensures GetHistory(ClearHistory(m).state).response == Response(200, HistoryView([], [], []))
  {
  }

  /** If the first `i` chat models answer without `choices` and model `i`
      answers with them, the chat route makes exactly `i + 1` calls and
      replies with model `i`'s name and answer. */
  lemma AskAnswersFromFirstWorkingModel(m: State, data: JsonObject, up: Oracle, now: Timestamp, i: nat)
    requires !AllSpace(Message(data))
    requires i < |ChatModels|
    requires up(Call(ChatModels[i], ChatPersona, Strip(Message(data)))).Choices?
    requires forall j :: 0 <= j < i ==> up(Call(ChatModels[j], ChatPersona, Strip(Message(data)))).NoChoices?
    ensures |Ask(m, data, up, now).calls| == i + 1
    ensures Ask(m, data, up, now).response
            == Response(200, ChatReply(up(Call(ChatModels[i], ChatPersona, Strip(Message(data)))).content,
                                       ChatModels[i]))
  {
  }

  /** The chat route with a first model that fails and a second that
      answers: two calls, and the reply names the second model. */
  lemma AskSecondModelAnswers(m: State, data: JsonObject, up: Oracle, now: Timestamp)
    requires !AllSpace(Message(data))
    requires up(Call(ChatModels[0], ChatPersona, Strip(Message(data)))).NoChoices?
    requires up(Call(ChatModels[1], ChatPersona, Strip(Message(data)))).Choices?
    ensures |Ask(m, data, up, now).calls| == 2
    ensures Ask(m, data, up, now).response.body.model == "mistralai/mistral-7b-instruct-v0.3"
  {
    var q := Strip(Message(data));
    assert forall j :: 0 <= j < 1 ==> up(Call(ChatModels[j], ChatPersona, q)).NoChoices?;
    AskAnswersFromFirstWorkingModel(m, data, up, now, 1);
  }

  /** "task" earns 20 whatever its case. */
  lemma XpTaskInCapitals(m: State)
    ensures XpUpdate(m, map["action" := "TASK"]).state.xp == m.xp + 20
  {
    assert Lower("TASK") == "task";
  }

  /** An action outside the table earns the default 5. */
  lemma XpUnknownAction(m: State)
    ensures XpUpdate(m, map["action" := "dance"]).state.xp == m.xp + 5
  {
    assert Lower("dance") == "dance";
  }

  /** An absent or empty action counts as a chat and earns 10. */
  lemma XpMissingAction(m: State)
    ensures XpUpdate(m, map[]).state.xp == m.xp + 10
    ensures XpUpdate(m, map["action" := ""]).state.xp == m.xp + 10
  {
    assert Lower("chat") == "chat";
  }

  /** Lower-casing the declared action first changes nothing: the route
      treats actions case-insensitively. */
  lemma XpCaseInsensitive(m: State, a: string)
    ensures XpUpdate(m, map["action" := Lower(a)]) == XpUpdate(m, map["action" := a])
  {
    LowerIdempotent(a);
    if a == [] {
      assert Lower(a) == [];
    } else {
      assert Lower(a) != [];
    }
  }

  /** The task route plans for "Plan my day effectively" when no goal is
      given, and sends a blank goal as the empty string instead of
      refusing it. */
  lemma TasksGoalDefaults(cfg: Config, m: State, up: Oracle, now: Timestamp, g: string)
    requires AllSpace(g)
    ensures CreateTasks(cfg, m, map[], up, now).calls
            == [Call(cfg.model, Planner, "Plan my day effectively")]
    ensures CreateTasks(cfg, m, map["goal" := g], up, now).calls
            == [Call(cfg.model, Planner, "")]
  {
    var d := "Plan my day effectively";
    assert !IsSpace(d[0]) && !IsSpace(d[|d| - 1]);
    assert TrimLeft(d) == d;
    assert TrimRight(d) == d;
  }
}
