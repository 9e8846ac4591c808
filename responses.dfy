/** What the forms make of an API answer: a status that is "success" or "ok"
    counts as success; anything else, or a call that throws, is a failure. */
module Responses {
  import opened Wrappers

  /** `r.status === "success" || r.status === "ok"` */
  predicate Succeeded(status: string) {
    status == "success" || status == "ok"
  }

  /** An answer of a create call: it throws (network error), or it answers
      with a status and perhaps a message. */
  datatype Reply = Threw | Replied(status: string, message: Option<string>)

  /** A fetch answer with a status and a `data` that may be missing
      (absent, null or otherwise falsy). */
  datatype Answer<T> = Answer(status: string, data: Option<T>)

  /** `responses.every(r => r.status === "success" || r.status === "ok")`,
      evaluated left to right. */
  function AllSucceeded(statuses: seq<string>): (b: bool)
    ensures b <==> forall i :: 0 <= i < |statuses| ==> Succeeded(statuses[i])
  {
    if statuses == [] then true
    else
      assert forall i :: 1 <= i < |statuses| ==> statuses[i] == statuses[1..][i - 1];
      Succeeded(statuses[0]) && AllSucceeded(statuses[1..])
  }

  /** `response.message || fallback`: the message unless it is missing or
      empty. */
  function MessageOr(message: Option<string>, fallback: string): (t: string)
    ensures message.Some? && message.value != "" ==> t == message.value
    ensures message.None? || message.value == "" ==> t == fallback
  {
    if message.Some? && message.value != "" then message.value else fallback
  }
}
