/**
 The process-wide `memory` record and the shape of the handlers' replies.
 */
module Memory {
  import opened PyText
  import opened Upstream

  datatype Option<+T> = None | Some(value: T)

  /** Seconds since the epoch, as the clock reported them when a record was
      made. The clock is outside the model: handlers receive the reading. */
  type Timestamp = real

  datatype ChatRecord = ChatRecord(user: string, ai: string, ts: Timestamp)
  datatype TaskRecord = TaskRecord(goal: string, items: string, ts: Timestamp)
  datatype EmailRecord = EmailRecord(thread: string, draft: string, ts: Timestamp)

  /** The three logs, oldest entry first. */
  datatype History = History(chats: seq<ChatRecord>, tasks: seq<TaskRecord>, emails: seq<EmailRecord>)

  /** The whole shared state: the experience counter, the last chat or email
      text and the last task list seen, and the logs. */
  datatype State = State(xp: int, lastChat: Option<string>, lastTasks: Option<string>, history: History)

  const InitialXp: int := 500

  const EmptyHistory: History := History([], [], [])

  /** The state the process starts in. */
  const Initial: State := State(InitialXp, None, None, EmptyHistory)

  /** How many of the most recent entries of each log a history read returns. */
  const HistoryLimit: nat := 20

  /** `view` is the newest `HistoryLimit` entries of `log` (all of them
      when there are fewer), in log order. */
  predicate IsRecentWindow<T(==)>(view: seq<T>, log: seq<T>) {
    && |view| == (if |log| < HistoryLimit then |log| else HistoryLimit)
    && log == log[..|log| - |view|] + view
  }

  /** The part of a log a history read shows: Python's `log[-20:]`. */
  function Recent<T(==)>(log: seq<T>): (r: seq<T>)
    ensures IsRecentWindow(r, log)
  {
    PySliceFrom(log, -(HistoryLimit as int))
  }

  /** The JSON object a handler answers with. */
  datatype Body =
    | ErrorText(error: string)
    | ErrorPayload(payload: Payload)
    | ChatReply(reply: string, model: string)
    | TaskList(tasks: string)
    | EmailDraft(draft: string)
    | XpAwarded(action: string, gained: int, total: int)
    | HistoryView(recentChats: seq<ChatRecord>, recentTasks: seq<TaskRecord>, recentEmails: seq<EmailRecord>)
    | Done

  /** An HTTP status with its body. */
  datatype Response = Response(status: nat, body: Body)

  /** What handling one request produced: the next state, the reply, and the
      upstream calls made, in order. */
  datatype Step = Step(state: State, response: Response, calls: seq<Call>)
}
