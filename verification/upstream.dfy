/**
 The upstream chat-completion service, seen from the handlers. The HTTP
 request itself is not modelled: an `Oracle` says what the service answers
 to each call, and every handler reports the calls it made, in order.
 */
module Upstream {

  /** Which of the three fixed system prompts a call carries. */
  datatype Persona = ChatPersona | Planner | EmailWriter

  /** One call of `call_openrouter`: the model asked, the system prompt and
      the user message. */
  datatype Call = Call(model: string, persona: Persona, user: string)

  /** The decoded JSON body of a call, as text. */
  type Payload = string

  /** What a call yields: a body with a `choices` entry, reduced to the first
      choice's message content, or any other body. A transport failure is
      caught and turned into an `{"error": ...}` body, so it is `NoChoices`. */
  datatype Resp = Choices(content: string) | NoChoices(payload: Payload)

  /** The service's answer to each possible call. */
  type Oracle = Call -> Resp

  /** The deployment setting for the model used by the single-shot handlers. */
  datatype Config = Config(model: string)

  /** The model used when no model is configured in the environment. */
  const DefaultModel: string := "meta-llama/llama-3.1-8b-instruct"

  const DefaultConfig: Config := Config(DefaultModel)

  /** How an ordered fallback over several models ended. */
  datatype Outcome = Answered(index: nat, content: string) | AllFailed

  /** The calls a fallback made, and how it ended. */
  datatype Attempts = Attempts(calls: seq<Call>, outcome: Outcome)

  /** Tries `models[from..]` in order with the chat prompt and the user
      message `q`, stopping at the first answer that has `choices`.
      Answered(i, c): models `from` through `i` were called, in order, all
      but the last answered without `choices`, and the last answered `c`.
      AllFailed: every remaining model was called once and none answered
      with `choices`. */
  function Fallback(models: seq<string>, q: string, up: Oracle, from: nat): (a: Attempts)
    requires from <= |models|
    ensures forall j :: 0 <= j < |a.calls| ==>
              from + j < |models| && a.calls[j] == Call(models[from + j], ChatPersona, q)
    ensures a.outcome.Answered? ==>
              && from <= a.outcome.index < |models|
              && |a.calls| == a.outcome.index - from + 1
              && up(Call(models[a.outcome.index], ChatPersona, q)) == Choices(a.outcome.content)
              && forall j :: from <= j < a.outcome.index ==>
                   up(Call(models[j], ChatPersona, q)).NoChoices?
    ensures a.outcome.AllFailed? ==>
              && |a.calls| == |models| - from
              && forall j :: from <= j < |models| ==> up(Call(models[j], ChatPersona, q)).NoChoices?
    decreases |models| - from
  {
    if from == |models| then
      Attempts([], AllFailed)
    else
      var c := Call(models[from], ChatPersona, q);
      match up(c)
      case Choices(content) => Attempts([c], Answered(from, content))
      case NoChoices(_) =>
        var rest := Fallback(models, q, up, from + 1);
        Attempts([c] + rest.calls, rest.outcome)
  }

  /** The fallback answers with the first model that gives `choices`, and
      with no other: a model with `choices` at index `k` means the answer
      comes from `k` or an earlier model. */
  lemma FallbackStopsAtFirst(models: seq<string>, q: string, up: Oracle, k: nat)
    requires k < |models| && up(Call(models[k], ChatPersona, q)).Choices?
    ensures Fallback(models, q, up, 0).outcome.Answered?
    ensures Fallback(models, q, up, 0).outcome.index <= k
  {
  }
}
