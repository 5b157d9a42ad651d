# Persona backend: a verified model of its request handlers

The persona backend is a small Flask service. It forwards user text to a
hosted chat-completion API (OpenRouter) and relays the answer. It also keeps
one process-wide `memory` record:

- an experience counter `xp`, starting at 500;
- the last chat (or email thread) text and the last task list;
- three logs, `chats`, `tasks` and `emails`. Entries are only appended, and
  all three logs are emptied together by a clear.

This project models the six routes that read or change that record. Each
route is a pure Dafny function of the current `State` and whichever of these
inputs the route uses:

- the request's JSON object;
- an upstream oracle;
- the clock reading;
- the configured model (`Config`), used by the task and email routes.

It returns a `Step`: the next state, the HTTP status and body, and the
upstream calls made, in order. Because the calls are part of the result, call
counts and call order can be stated and proved.

Modules, one per part of `app.py`:

- `PyText` (`text.dfy`): Python's `str.strip()`, `str.lower()` and `s[k:]`.
- `Upstream` (`upstream.dfy`): the upstream call as an oracle `Call -> Resp`,
  and the ordered model fallback of the chat route.
- `Memory` (`memory.dfy`): the shared record, its log entries, the initial
  state, the 20-entry history window and the reply shapes.
- `Handlers` (`handlers.dfy`): `ask`, `create_tasks`, `draft_email`,
  `xp_update`, `get_history` and `clear_history`.
- `Sessions` (`sessions.dfy`): a dispatcher over the routes, runs of
  requests, and the properties that hold across runs.

The upstream response is `Choices(content)` when the decoded body is a JSON
object with a `choices` key, reduced to the first choice's message content.
Any other JSON object is `NoChoices(payload)`. `call_openrouter` catches every
exception and returns `{"error": ...}`, so a transport failure is also
`NoChoices`.

Two details of the code shape the model:

- The chat route only tests that a `choices` key is present (app.py:79), not
  that the list is non-empty.
- `draft_email` stores the thread in `last_chat` before its upstream call
  (app.py:122), so it is set even when the call fails.

## Model

| member | source | states |
|---|---|---|
| PyText.Strip | app.py:57-58 | The stripped text neither starts nor ends with whitespace (Python's `isspace` set), and it is empty exactly when the input is blank, which is what `if not q` tests. |
| PyText.StripIsInfix | app.py:57 | The stripped text sits inside the input with only whitespace before and after it, so `strip()` removes a blank head and a blank tail and nothing else. |
| PyText.IsSpaceAscii | app.py:58 | Within ASCII, the whitespace `strip()` removes is exactly tab, line feed, vertical tab, form feed, carriage return, U+001C to U+001F and space; every other whitespace character lies between U+0085 and U+3000. |
| PyText.Lower | app.py:148 | Lower-casing keeps the length and maps each character on its own: ASCII capitals and KELVIN SIGN go to lower case, and every other character is kept. |
| PyText.LowerIdempotent | app.py:148 | Lower-casing an already lower-cased action changes nothing. |
| PyText.PySliceFrom | app.py:171-173 | `s[k:]` has length `min(-k, len)` for a negative `k` and `max(len - k, 0)` otherwise, and it is always a suffix of `s`. |
| Memory.Recent | app.py:171-173 | A history read of a log yields its newest `min(20, n)` entries, oldest first: the log is some prefix followed by exactly the window. |
| Sessions.FreshStart | app.py:14-23 | The process starts with 500 xp, no last chat, no last task list and three empty logs, so a first history read returns three empty lists. |
| Handlers.Get | app.py:57 | `data.get(key, default)` yields the body's value when the key is present and the default otherwise. |
| Handlers.ChatModelsDistinct | app.py:68-72 | The chat route tries three different models, and the first is `DefaultConfig`'s model, the one used when none is configured. |
| Upstream.Fallback | app.py:68-87 | Models are tried in list order, one call each. If model `i` answers, exactly `i + 1` calls were made, every earlier model answered without `choices`, and model `i`'s content is the answer. If all fail, every model was called once and none gave `choices`. |
| Upstream.FallbackStopsAtFirst | app.py:74-85 | If any model would answer with `choices`, the fallback succeeds, and the answering model is that one or an earlier one. |
| Handlers.Ask | app.py:54-87 | A blank message gives 400 "Empty message", with no call and an unchanged state. Otherwise `lastChat` becomes the stripped message and the calls are made to the chat models in order. The first call that returns `choices` is the last call made; its content is logged as one chat record and returned with that model's name. If no call returns `choices`, exactly three calls were made, the reply is 500 "All models failed" and no chat is logged. In every case xp, lastTasks, tasks and emails are untouched. |
| Handlers.AskModels | app.py:61-87 | After the blank check, `lastChat` becomes the stripped message and the models are tried in order. The first answer with `choices` is logged as `{user: q, ai: answer}` and returned with that model's name. If all three fail, the reply is 500 and the chat log is unchanged. |
| Handlers.Logged | app.py:79-84 | A fallback that found an answer logs exactly one record `{user: q, ai: answer}`, and one that failed logs none. |
| Handlers.CreateTasks | app.py:91-111 | Exactly one call is made, to the configured model, with the stripped goal. On success `lastTasks` is set and one task record is appended, and nothing else changes. On failure the reply is 400 with the upstream payload verbatim, and the state is unchanged. |
| Handlers.DraftRequest | app.py:131 | The drafting prompt ends with the whole thread text. |
| Handlers.DraftEmail | app.py:115-141 | A blank thread gives 400 "Empty thread", with no call and an unchanged state. Otherwise exactly one call is made and `lastChat` becomes the thread, even if the call fails. On success one email record is appended and the draft is returned. On failure the reply is 400 with the upstream payload, and every log is unchanged. |
| Handlers.Gain | app.py:149 | Every gain is positive. A gain differs from the default 5 exactly when the action is one of the table's keys. |
| Handlers.GainValues | app.py:149 | A chat earns 10, a task 20, an email 15, and every other action the default 5. |
| Handlers.Action | app.py:148 | An absent or empty action counts as "chat". Any other action is lower-cased. |
| Handlers.XpUpdate | app.py:145-151 | xp grows by exactly the declared action's gain, and the reply's `total_xp` equals the new xp. No call is made, and nothing else in the state changes. |
| Handlers.GetHistory | app.py:166-174 | The state is not changed and no call is made. Each of the three views is the newest `min(20, n)` entries of its log, in log order. |
| Handlers.ClearHistory | app.py:177-180 | All three logs become empty. xp, lastChat and lastTasks are kept, and the reply is 200 `{ok: true}`. |
| Sessions.RunXp | app.py:145-151 | Over any sequence of requests, xp changes by exactly the sum of the gains of the XP requests. |
| Sessions.XpNeverBelowInitial | app.py:14-15 | Starting from the initial state, xp is never below 500 after any sequence of requests. |
| Sessions.HandleExtendsLogs | app.py:82-139 | Every request except a clear leaves each old log as a prefix of its new value. |
| Sessions.LogsAppendOnly | app.py:18-22 | Over any sequence of requests without a clear, each log only grows by appending. |
| Handlers.ChatLogged | app.py:74-84 | A chat request logs at most one record. |
| Handlers.AskLogs | app.py:61-87 | A chat request appends exactly `ChatLogged` to the chat log, whatever the state it is served in: one record `{user: q, ai: answer}` when some model answers, none when the message is blank or every model fails. |
| Sessions.HandleAppendsChats | app.py:82-84 | Every request except a clear appends at most one chat record, and only a chat request appends any. The record does not depend on the state it is served in. |
| Sessions.RunChats | app.py:82-84 | Without a clear, the chat log is the earlier log followed by every chat record logged since, in order. |
| Sessions.RecentChatsAfterRun | app.py:171 | After a run without a clear that logs at least 20 chats, a history read shows exactly the last 20 of those chats, oldest first. |
| Sessions.ClearThenRead | app.py:169-180 | A history read right after a clear returns three empty lists. |
| Sessions.AskAnswersFromFirstWorkingModel | app.py:74-85 | If models `0..i-1` fail and model `i` answers, the chat route makes exactly `i + 1` calls and replies 200 with model `i`'s answer and name. |
| Sessions.AskSecondModelAnswers | app.py:68-85 | If the first model fails and the second answers, exactly two calls are made and the reply names "mistralai/mistral-7b-instruct-v0.3". |
| Sessions.XpTaskInCapitals | app.py:148-149 | The action "TASK" earns 20, because the lookup is made after lower-casing. |
| Sessions.XpUnknownAction | app.py:149 | An action outside the table ("dance") earns the default 5. |
| Sessions.XpMissingAction | app.py:148-149 | An absent or empty action counts as "chat" and earns 10, not the default 5. |
| Sessions.XpCaseInsensitive | app.py:148 | Declaring an action or its lower-cased form gives the same state and the same reply. |
| Sessions.TasksGoalDefaults | app.py:94 | A missing goal is sent as "Plan my day effectively". Every blank goal is sent as the empty string and is not refused. |

## Left out

- HTTP plumbing is not modelled: Flask routing, `request.get_json`, `jsonify` and CORS. Responses are a status code with a body datatype.
- `call_openrouter`'s HTTP request is not modelled: the URL, headers, API key, 60-second timeout and the text of caught exceptions. Its result is the oracle's `Resp`.
- The environment read of `OPENROUTER_MODEL` becomes a `Config` parameter. `DefaultConfig` holds the hard-coded default.
- The system prompt texts, request titles, `max_tokens` and `temperature` are pass-through values with no logic. A call records only which of the three prompts it carries (`Persona`).
- `time.time()` is outside the model: the clock reading is a parameter.
- Upstream bodies that make the source raise are not modelled. In each case Flask answers 500, and in `ask` the remaining models are not tried, although `last_chat` was already set at app.py:61. The cases are:
  - a `choices` key that holds an empty list (IndexError at app.py:80);
  - a decoded body that is JSON `null` or a number (TypeError from `"choices" in resp` at app.py:79);
  - a body that is a string or list containing `"choices"` (the test passes, then indexing raises at app.py:80);
  - a first choice without `message` or `content` (KeyError at app.py:80).
  `Choices` always carries a first content, and `NoChoices` stands only for JSON objects without the key.
- A `content` that is not a string (JSON `null`, a number, a list or an object) is not modelled. The source logs and returns it as it is (app.py:80-85), but `Choices` carries a string.
- Request bodies are JSON objects with string values only. A non-string `message`, `goal` or `thread` (which makes `.strip()` raise), falsy non-strings for `action`, and a body that is not JSON are not modelled.
- Concurrent requests on the unsynchronised global `memory` are not modelled. Requests are served one at a time.
- The `health` route only reads the state, so it is not modelled. The `__main__` start-up block is not modelled either.
- PyText.Lower: lower-cases only the ASCII capitals and KELVIN SIGN (the one other character whose lower case is an ASCII letter), not the rest of Unicode. The XP gain is still exact, because no other character can lower-case into a table key. The echoed `action` string can differ from Python's for other non-ASCII capitals.
