/**
 * One request from end to end: "<@BOT> hello" in a new Slack thread, a run
 * that goes queued, in_progress, completed, and one assistant message
 * "hi there". The placeholder "Thinking..." message is updated in place
 * with the answer, and the Slack thread is now mapped to the new OpenAI thread.
 */
module Scenario {
  import opened Base
  import opened Text
  import opened Remote
  import opened Assembly
  import opened Runs
  import opened Relay
  import opened Mention
  import opened Router

  /** The clock of the example: every sleep lasts exactly POLLING_INTERVAL_S. */
  function Clock(k: nat): nat
  {
    k * PollingInterval
  }

  /** The first retrieve sees the run in progress, every later one sees it completed. */
  function Statuses(k: nat): Reply<RunState>
  {
    if k == 0 then Ok(RunState("in_progress", None)) else Ok(RunState("completed", None))
  }

  /** The one assistant message of the run. */
  const Answer: Message := Message(Some("run_1"), "assistant", [TextBlock("hi there")])

  /** Every collaborator answers as in the example, and every Slack call succeeds. */
  function HelloScript(): Script
  {
    Script(Ok(PostAck(true, "T1")), Ok("thread_1"), Ok(()),
           Ok(Run("run_1", RunState("queued", None))),
           Statuses, Clock, Ok(()), Ok([Answer]), Ok(()), Ok(()))
  }

  /** What the try block calls, in order, for the example. */
  const SessionCalls: seq<Call> :=
    [CreateThread] + [AddMessage("thread_1", "hello")] + [StartRun("thread_1")]
    + [RetrieveRun("thread_1", "run_1"), RetrieveRun("thread_1", "run_1")] + [ListMessages("thread_1")]

  /** Two retrieves: in_progress, then completed; no cancel. */
  lemma HelloPolls()
    ensures ClockAdvances(Clock)
    ensures WaitForRun("thread_1", Run("run_1", RunState("queued", None)), Statuses, Clock, Ok(()))
         == Waited(Ok(RunState("completed", None)),
                   [RetrieveRun("thread_1", "run_1"), RetrieveRun("thread_1", "run_1")])
  {
    var p2 := Poll(RunState("completed", None), 2, Statuses, Clock);
    assert p2 == Polled(Settled(RunState("completed", None)), 2);
    assert Poll(RunState("in_progress", None), 1, Statuses, Clock) == p2;
    assert Poll(RunState("queued", None), 0, Statuses, Clock) == p2;
    assert Retrievals("thread_1", "run_1", 1) == [RetrieveRun("thread_1", "run_1")];
  }

  /** The single assistant message of the run is the reply, unchanged. */
  lemma HelloAssembled()
    ensures Assemble([Answer], "run_1") == "hi there"
  {
    assert OfRun([Answer], "run_1") == [Answer];
    assert Reversed([Answer]) == [Answer];
    assert BlockTexts(Answer.content) == ["hi there"];
    assert Texts([Answer]) == ["hi there"];
    var h := "hi there";
    assert !IsSpace(h[0]) && !IsSpace(h[|h| - 1]);
    TrimUnique([], h, []);
    assert [] + h + [] == h;
  }

  /** The try block: a new thread, the message, the run, two polls and the message list. */
  lemma HelloSession(req: Request)
    requires req.prompt == "hello" && req.threadTs == "T0"
    ensures ClockAdvances(Clock)
    ensures RunSession(map[], req, HelloScript())
         == Session(SessionCalls, map["T0" := "thread_1"], Ok(Answered("hi there")))
  {
    HelloPolls();
    HelloConcluded();
    var s := HelloScript();
    assert Threads.Resolve(map[], "T0", s.createThread) == Threads.Resolved(Ok("thread_1"), map["T0" := "thread_1"]);
  }

  /** The completed run is answered with the assembled text after one message list. */
  lemma HelloConcluded()
    ensures Conclude("thread_1", Run("run_1", RunState("completed", None)), HelloScript().listMessages)
         == Concluded([ListMessages("thread_1")], Ok(Answered("hi there")))
  {
    HelloAssembled();
  }

  /** process_with_assistant on the request: the placeholder, the try block, the update. */
  lemma HelloProcessed(req: Request)
    requires req.prompt == "hello" && req.threadTs == "T0"
    ensures ClockAdvances(Clock)
    ensures Expected(true, map[], req, HelloScript())
         == Transcript([PostThinking("T0")] + SessionCalls + [Update(req.channel, "T1", Verbatim("hi there"))],
                       map["T0" := "thread_1"], Answered("hi there"), None)
  {
    HelloSession(req);
    var s := HelloScript();
    var b := RunSession(map[], req, s);
    var e := Finish(b.result, PlaceholderTs(s.thinking), req, s.firstReply, s.secondReply);
    assert e == Ending([Update(req.channel, "T1", Verbatim("hi there"))], Answered("hi there"), None);
    var t := Expected(true, map[], req, s);
    assert t == Transcript([PostThinking(req.threadTs)] + b.calls + e.replies, b.threads, e.outcome, e.escaped);
  }

  /**
   * The mention handler turns the event into the request "hello", and
   * process_with_assistant posts the placeholder, creates a thread, adds the
   * message, starts the run, polls it twice, lists the messages and
   * updates the placeholder with "hi there".
   */
  lemma HelloEndToEnd(e: MentionEvent)
    requires e.text == MentionToken("BOT") + " hello" && e.threadTs == None && e.ts == "T0"
    ensures ClockAdvances(Clock)
    ensures var req := OnMention(Some("BOT"), e);
            && req == Some(Request("hello", "T0", e.channel))
            && Expected(true, map[], req.value, HelloScript()).outcome == Answered("hi there")
            && Expected(true, map[], req.value, HelloScript()).calls
               == [PostThinking("T0")] + SessionCalls + [Update(e.channel, "T1", Verbatim("hi there"))]
  {
    MentionHello("BOT", e);
    HelloProcessed(Request("hello", "T0", e.channel));
  }
}
