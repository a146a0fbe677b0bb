/**
 * The relay's collaborators, seen from its side: the exceptions their calls
 * can raise, what a call returns, and the calls themselves as they would be
 * observed on the wire (the Slack Web API and the OpenAI Assistants API).
 */
module Remote {

  /** The exception classes process_with_assistant tells apart. */
  datatype Exception =
    | OpenAIError(detail: string)
    | TimeoutError
    | SlackApiError(detail: string)
    | OtherError(detail: string)

  /** What one call to a collaborator produced: a value, or a raised exception. */
  datatype Reply<+T> = Ok(value: T) | Raised(error: Exception)

  /**
   * The text of a reply as the relay composes it: one of its fixed
   * apologies, the OpenAI-error apology around the exception's detail, or a
   * text passed on unchanged (the assistant's answer, a run's details).
   * `Spelled` gives the characters that are sent.
   */
  datatype Words =
    | NotConfiguredApology
    | RequiresActionApology
    | TimeoutApology
    | UnexpectedApology
    | ApiErrorApology(detail: string)
    | Verbatim(text: string)

  /** How every text the relay writes itself begins, and how each of its apologies goes on. */
  const Apology: string := "Sorry, "
  const NotConfiguredExcuse: string := "the OpenAI connection or Assistant is not configured correctly. Please check server logs."
  const RequiresActionExcuse: string := "my current task requires actions I can't perform yet."
  const TimeoutExcuse: string := "the request took too long to process."
  const UnexpectedExcuse: string := "an unexpected error occurred. See logs for details."
  const ApiErrorExcuse: string := "I encountered an error with the OpenAI API: "

  /**
   * The characters of a reply. Every text the relay writes itself opens
   * with the apology; the OpenAI-error apology ends with the exception's
   * detail; an answer or a run's details are sent as they are.
   */
  function Spelled(w: Words): (text: string)
    ensures !w.Verbatim? ==> |text| >= |Apology| && text[..|Apology|] == Apology
    ensures w.ApiErrorApology? ==> |text| >= |w.detail| && text[|text| - |w.detail|..] == w.detail
    ensures w.Verbatim? ==> text == w.text
  {
    match w
    case NotConfiguredApology => Apology + NotConfiguredExcuse
    case RequiresActionApology => Apology + RequiresActionExcuse
    case TimeoutApology => Apology + TimeoutExcuse
    case UnexpectedApology => Apology + UnexpectedExcuse
    case ApiErrorApology(detail) => Apology + ApiErrorExcuse + detail
    case Verbatim(text) => text
  }

  /** One call the relay makes to Slack or OpenAI, in the order it makes them. */
  datatype Call =
    | PostThinking(threadTs: string)                 // say(<thinking text>, thread_ts)
    | CreateThread                                   // beta.threads.create()
    | AddMessage(threadId: string, prompt: string)   // beta.threads.messages.create(role="user")
    | StartRun(threadId: string)                     // beta.threads.runs.create(assistant_id)
    | RetrieveRun(threadId: string, runId: string)   // beta.threads.runs.retrieve
    | CancelRun(threadId: string, runId: string)     // beta.threads.runs.cancel
    | ListMessages(threadId: string)                 // beta.threads.messages.list(order="desc")
    | Say(text: Words, threadTs: string)             // say(text, thread_ts): a new reply
    | Update(channel: string, ts: string, text: Words) // chat_update: edit the placeholder

  /** The calls that put a reply in front of the user. */
  predicate IsReply(c: Call)
  {
    c.Say? || c.Update?
  }

  function Replies(calls: seq<Call>): (r: seq<Call>)
    ensures |r| <= |calls|
    ensures forall c | c in r :: IsReply(c) && c in calls
    ensures forall c | c in calls && IsReply(c) :: c in r
  {
    if calls == [] then []
    else (if IsReply(calls[0]) then [calls[0]] else []) + Replies(calls[1..])
  }

  lemma {:induction false} RepliesAppend(a: seq<Call>, b: seq<Call>)
    ensures Replies(a + b) == Replies(a) + Replies(b)
  {
    if a == [] {
      assert a + b == b;
    } else {
      assert (a + b)[0] == a[0];
      assert (a + b)[1..] == a[1..] + b;
      RepliesAppend(a[1..], b);
    }
  }

  /** How many cancel requests the calls contain. */
  function Cancels(calls: seq<Call>): (n: nat)
    ensures n <= |calls|
    ensures n == 0 <==> forall c | c in calls :: !c.CancelRun?
  {
    if calls == [] then 0
    else (if calls[0].CancelRun? then 1 else 0) + Cancels(calls[1..])
  }

  lemma {:induction false} CancelsAppend(a: seq<Call>, b: seq<Call>)
    ensures Cancels(a + b) == Cancels(a) + Cancels(b)
  {
    if a == [] {
      assert a + b == b;
    } else {
      assert (a + b)[0] == a[0];
      assert (a + b)[1..] == a[1..] + b;
      CancelsAppend(a[1..], b);
    }
  }
}
