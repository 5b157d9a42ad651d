/**
 The six state-changing or state-reading routes. Each handler is a pure
 function from the current state, the request's JSON object, the upstream
 oracle and the clock reading to a `Step`: next state, reply, calls made.
 */
module Handlers {
  import opened PyText
  import opened Upstream
  import opened Memory

  /** A request body: a JSON object whose values are strings. */
  type JsonObject = map<string, string>

  /** Python's `data.get(key, default)`. */
  function Get(data: JsonObject, key: string, default: string): (v: string)
    ensures key in data ==> v == data[key]
    ensures key !in data ==> v == default
  {
    if key in data then data[key] else default
  }

  /** The chat route's models, in the order they are tried. */
  const ChatModels: seq<string> := [
    "meta-llama/llama-3.1-8b-instruct",
    "mistralai/mistral-7b-instruct-v0.3",
    "google/gemma-2-9b-it"
  ]

  /** The chat route's models are three different models, and the first is
      the one a deployment without a configured model uses elsewhere. */
  lemma ChatModelsDistinct()
    ensures |ChatModels| == 3 && ChatModels[0] == DefaultConfig.model
    ensures forall i, j :: 0 <= i < j < |ChatModels| ==> ChatModels[i] != ChatModels[j]
  {
  }

  /** The text a chat request asks about, before stripping. */
  function Message(data: JsonObject): string {
    Get(data, "message", "")
  }

  /** The chat record a fallback for the stripped message `q` logs: one
      `{user: q, ai: answer}` record when some model answered, none when
      all failed. */
  function Logged(q: string, a: Attempts, now: Timestamp): (r: seq<ChatRecord>)
    ensures a.outcome.Answered? ==> r == [ChatRecord(q, a.outcome.content, now)]
    ensures a.outcome.AllFailed? ==> r == []
  {
    if a.outcome.Answered? then [ChatRecord(q, a.outcome.content, now)] else []
  }

  /** The chat record a chat request logs, whatever the state: one record
      when the message is not blank and some chat model answers, none
      otherwise. */
  function ChatLogged(data: JsonObject, up: Oracle, now: Timestamp): (r: seq<ChatRecord>)
    ensures |r| <= 1
  {
    var q := Strip(Message(data));
    if q == [] then [] else Logged(q, Fallback(ChatModels, q, up, 0), now)
  }

  /** POST /api/ask. A blank message is refused before anything else.
      Otherwise the stripped message becomes `lastChat` and the chat models
      are tried in order until one answers with `choices`; that answer is
      logged and returned with the model's name. If none does, the reply is
      500 and no chat is logged. Experience, tasks and emails never change. */
  function Ask(m: State, data: JsonObject, up: Oracle, now: Timestamp): (s: Step)
    ensures AllSpace(Message(data)) ==>
              s == Step(m, Response(400, ErrorText("Empty message")), [])
    ensures !AllSpace(Message(data)) ==>
              && s.state.xp == m.xp
              && s.state.lastChat == Some(Strip(Message(data)))
              && s.state.lastTasks == m.lastTasks
              && s.state.history.tasks == m.history.tasks
              && s.state.history.emails == m.history.emails
    ensures !AllSpace(Message(data)) ==>
              && 1 <= |s.calls| <= |ChatModels|
              && (forall j :: 0 <= j < |s.calls| ==>
                    s.calls[j] == Call(ChatModels[j], ChatPersona, Strip(Message(data))))
              && (forall j :: 0 <= j < |s.calls| - 1 ==> up(s.calls[j]).NoChoices?)
    ensures !AllSpace(Message(data)) && up(s.calls[|s.calls| - 1]).Choices? ==>
              var answer := up(s.calls[|s.calls| - 1]).content;
              && s.response == Response(200, ChatReply(answer, ChatModels[|s.calls| - 1]))
              && s.state.history.chats
                 == m.history.chats + [ChatRecord(Strip(Message(data)), answer, now)]
    ensures !AllSpace(Message(data)) && up(s.calls[|s.calls| - 1]).NoChoices? ==>
              && |s.calls| == |ChatModels|
              && s.response == Response(500, ErrorText("All models failed"))
              && s.state.history.chats == m.history.chats
  {
    var q := Strip(Message(data));
    if q == [] then
      Step(m, Response(400, ErrorText("Empty message")), [])
    else
      AskModels(m, q, up, now)
  }

  /** The chat route after its blank check, for the stripped message `q`:
      `q` becomes `lastChat`, the chat models are tried in order, and the
      first answer with `choices` is logged and returned. */
  function AskModels(m: State, q: string, up: Oracle, now: Timestamp): (s: Step)
    ensures s.state.xp == m.xp && s.state.lastChat == Some(q) && s.state.lastTasks == m.lastTasks
    ensures s.state.history.tasks == m.history.tasks && s.state.history.emails == m.history.emails
    ensures 1 <= |s.calls| <= |ChatModels|
    ensures forall j :: 0 <= j < |s.calls| ==> s.calls[j] == Call(ChatModels[j], ChatPersona, q)
    ensures forall j :: 0 <= j < |s.calls| - 1 ==> up(s.calls[j]).NoChoices?
    ensures up(s.calls[|s.calls| - 1]).Choices? ==>
              var answer := up(s.calls[|s.calls| - 1]).content;
              && s.response == Response(200, ChatReply(answer, ChatModels[|s.calls| - 1]))
              && s.state.history.chats == m.history.chats + [ChatRecord(q, answer, now)]
    ensures up(s.calls[|s.calls| - 1]).NoChoices? ==>
              && |s.calls| == |ChatModels|
              && s.response == Response(500, ErrorText("All models failed"))
              && s.state.history.chats == m.history.chats
  {
    var m1 := m.(lastChat := Some(q));
    var a := Fallback(ChatModels, q, up, 0);
    var h := m1.history.(chats := m1.history.chats + Logged(q, a, now));
    match a.outcome
    case Answered(i, ai) =>
      assert a.calls[|a.calls| - 1] == Call(ChatModels[i], ChatPersona, q);
      Step(m1.(history := h), Response(200, ChatReply(ai, ChatModels[i])), a.calls)
    case AllFailed =>
      assert a.calls[|a.calls| - 1] == Call(ChatModels[2], ChatPersona, q);
      assert h.chats == m.history.chats;
      Step(m1.(history := h), Response(500, ErrorText("All models failed")), a.calls)
  }

  /** A chat request appends to the chat log exactly `ChatLogged`. */
  lemma AskLogs(m: State, data: JsonObject, up: Oracle, now: Timestamp)
    ensures Ask(m, data, up, now).state.history.chats == m.history.chats + ChatLogged(data, up, now)
  {
    if AllSpace(Message(data)) {
      assert m.history.chats + [] == m.history.chats;
    }
  }

  /** The goal a task request plans for, before stripping. */
  function Goal(data: JsonObject): string {
    Get(data, "goal", "Plan my day effectively")
  }

  /** POST /api/tasks. Exactly one call, to the configured model, with the
      stripped goal (a blank goal is sent as it is). With `choices` the text
      becomes `lastTasks` and is logged; without, the upstream body is
      passed back with 400 and the state is left as it was. */
  function CreateTasks(cfg: Config, m: State, data: JsonObject, up: Oracle, now: Timestamp): (s: Step)
    ensures s.calls == [Call(cfg.model, Planner, Strip(Goal(data)))]
    ensures up(s.calls[0]).Choices? ==>
              var items := up(s.calls[0]).content;
              && s.response == Response(200, TaskList(items))
              && s.state == m.(lastTasks := Some(items),
                               history := m.history.(tasks := m.history.tasks
                                            + [TaskRecord(Strip(Goal(data)), items, now)]))
    ensures up(s.calls[0]).NoChoices? ==>
              s.state == m && s.response == Response(400, ErrorPayload(up(s.calls[0]).payload))
  {
    var goal := Strip(Goal(data));
    var c := Call(cfg.model, Planner, goal);
    match up(c)
    case Choices(items) =>
      var h := m.history.(tasks := m.history.tasks + [TaskRecord(goal, items, now)]);
      Step(m.(lastTasks := Some(items), history := h), Response(200, TaskList(items)), [c])
    case NoChoices(p) =>
      Step(m, Response(400, ErrorPayload(p)), [c])
  }

  /** The thread an email request answers, before stripping. */
  function Thread(data: JsonObject): string {
    Get(data, "thread", "")
  }

  /** The user message sent to draft a reply to `thread`: a fixed
      instruction, a blank line, then the thread itself. */
  function DraftRequest(thread: string): (u: string)
    ensures |u| > |thread| && u[|u| - |thread|..] == thread
  {
    "Draft a reply for this thread:\n\n" + thread
  }

  /** POST /api/draft-email. A blank thread is refused before anything else.
      Otherwise the stripped thread becomes `lastChat` whatever happens next,
      and exactly one call is made to the configured model. With `choices`
      the draft is logged and returned; without, the upstream body is passed
      back with 400 and no email is logged. */
  function DraftEmail(cfg: Config, m: State, data: JsonObject, up: Oracle, now: Timestamp): (s: Step)
    ensures AllSpace(Thread(data)) ==>
              s == Step(m, Response(400, ErrorText("Empty thread")), [])
    ensures !AllSpace(Thread(data)) ==>
              && s.calls == [Call(cfg.model, EmailWriter, DraftRequest(Strip(Thread(data))))]
              && s.state.xp == m.xp
              && s.state.lastChat == Some(Strip(Thread(data)))
              && s.state.lastTasks == m.lastTasks
              && s.state.history.chats == m.history.chats
              && s.state.history.tasks == m.history.tasks
    ensures !AllSpace(Thread(data)) && up(s.calls[0]).Choices? ==>
              var draft := up(s.calls[0]).content;
              && s.response == Response(200, EmailDraft(draft))
              && s.state.history.emails
                 == m.history.emails + [EmailRecord(Strip(Thread(data)), draft, now)]
    ensures !AllSpace(Thread(data)) && up(s.calls[0]).NoChoices? ==>
              && s.response == Response(400, ErrorPayload(up(s.calls[0]).payload))
              && s.state.history == m.history
  {
    var thread := Strip(Thread(data));
    if thread == [] then
      Step(m, Response(400, ErrorText("Empty thread")), [])
    else
      var m1 := m.(lastChat := Some(thread));
      var c := Call(cfg.model, EmailWriter, DraftRequest(thread));
      match up(c)
      case Choices(draft) =>
        var h := m1.history.(emails := m1.history.emails + [EmailRecord(thread, draft, now)]);
        Step(m1.(history := h), Response(200, EmailDraft(draft)), [c])
      case NoChoices(p) =>
        Step(m1, Response(400, ErrorPayload(p)), [c])
  }

  /** Experience points per action; any other action earns `DefaultGain`. */
  const GainTable: map<string, int> := map["chat" := 10, "task" := 20, "email" := 15]

  const DefaultGain: int := 5

  /** The experience an (already lower-cased) action earns. */
  function Gain(action: string): (g: int)
    ensures g > 0
    ensures action in GainTable <==> g != DefaultGain
  {
    if action in GainTable then GainTable[action] else DefaultGain
  }

  /** The gain table: a chat earns 10, a task 20, an email 15, and any
      other action 5. */
  lemma GainValues(action: string)
    ensures Gain("chat") == 10 && Gain("task") == 20 && Gain("email") == 15
    ensures action != "chat" && action != "task" && action != "email" ==> Gain(action) == 5
  {
  }

  /** The action an XP request declares: Python's `(data.get("action") or
      "chat").lower()`, so an absent or empty action counts as a chat. */
  function Action(data: JsonObject): (a: string)
    ensures "action" !in data || data["action"] == "" ==> a == "chat"
    ensures "action" in data && data["action"] != "" ==> a == Lower(data["action"])
  {
    Lower(if "action" in data && data["action"] != "" then data["action"] else "chat")
  }

  /** POST /api/xp. Adds the action's gain to the counter and reports the
      action, the gain and the new total; nothing else changes and nothing
      is called. */
  function XpUpdate(m: State, data: JsonObject): (s: Step)
    ensures s.calls == []
    ensures s.response.status == 200 && s.response.body.XpAwarded?
    ensures s.response.body.action == Action(data)
    ensures s.response.body.gained == Gain(Action(data))
    ensures s.state.xp == m.xp + s.response.body.gained
    ensures s.response.body.total == s.state.xp
    ensures s.state == m.(xp := s.state.xp)
  {
    var action := Action(data);
    var gain := Gain(action);
    Step(m.(xp := m.xp + gain), Response(200, XpAwarded(action, gain, m.xp + gain)), [])
  }

  /** GET /api/history. For each log, its most recent `HistoryLimit`
      entries (all of them if there are fewer), oldest first; the state is
      only read. */
  function GetHistory(m: State): (s: Step)
    ensures s.state == m && s.calls == []
    ensures s.response.status == 200 && s.response.body.HistoryView?
    ensures IsRecentWindow(s.response.body.recentChats, m.history.chats)
    ensures IsRecentWindow(s.response.body.recentTasks, m.history.tasks)
    ensures IsRecentWindow(s.response.body.recentEmails, m.history.emails)
  {
    var h := m.history;
    Step(m, Response(200, HistoryView(Recent(h.chats), Recent(h.tasks), Recent(h.emails))), [])
  }

  /** POST /api/history/clear. Empties all three logs; the counter and the
      last chat and task texts are kept. */
  function ClearHistory(m: State): (s: Step)
    ensures s.state.history.chats == [] && s.state.history.tasks == [] && s.state.history.emails == []
    ensures s.state.xp == m.xp && s.state.lastChat == m.lastChat && s.state.lastTasks == m.lastTasks
    ensures s.response == Response(200, Done) && s.calls == []
  {
    Step(m.(history := EmptyHistory), Response(200, Done), [])
  }
}
