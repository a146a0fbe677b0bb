/**
 * process_with_assistant: one admitted Slack message becomes an OpenAI
 * Assistants conversation turn and at most two reply calls in the Slack
 * thread, none after a SlackApiError in the try block.
 *
 * `Expected` states what the function does for every answer its
 * collaborators can give (a `Script`); `Process` and `Attempt` are the
 * step-by-step procedure, proved to do just that; the lemmas after them
 * state what holds of every request: how many replies it makes and where,
 * when it cancels its run, and what becomes of the thread map.
 */
module Relay {
  import opened Base
  import opened Remote
  import opened Assembly
  import opened Runs
  import opened Threads

  /** What the handler passes on: the prompt, the Slack thread key and the channel. */
  datatype Request = Request(prompt: string, threadTs: string, channel: string)

  /** Slack's answer to the placeholder post: its `ok` flag and the message `ts`. */
  datatype PostAck = PostAck(ok: bool, ts: string)

  /** How a request ends. */
  datatype Outcome =
    | NotConfigured            // no OpenAI client or assistant id
    | Answered(text: string)   // run completed
    | NeedsAction              // run requires_action
    | RunEnded(details: string) // failed, cancelled, expired or any other status
    | ApiFailure(detail: string) // an OpenAIError was caught
    | TimedOut                 // the TimeoutError of the polling loop was caught
    | SlackFailure             // a SlackApiError was caught: no further reply
    | Unexpected               // any other exception was caught

  /** The text the user is shown for an outcome; none after a Slack error. */
  function ReplyText(o: Outcome): Option<Words>
  {
    match o
    case NotConfigured => Some(NotConfiguredApology)
    case Answered(text) => Some(Verbatim(text))
    case NeedsAction => Some(RequiresActionApology)
    case RunEnded(details) => Some(Verbatim(details))
    case ApiFailure(detail) => Some(ApiErrorApology(detail))
    case TimedOut => Some(TimeoutApology)
    case SlackFailure => None
    case Unexpected => Some(UnexpectedApology)
  }

  /**
   * The except clause an exception lands in; each kind of exception has its
   * own clause, and only the SlackApiError clause says nothing to the user.
   */
  function Caught(e: Exception): (o: Outcome)
    ensures o.ApiFailure? <==> e.OpenAIError?
    ensures o.TimedOut? <==> e.TimeoutError?
    ensures o.SlackFailure? <==> e.SlackApiError?
    ensures o.Unexpected? <==> e.OtherError?
    ensures ReplyText(o).None? <==> e.SlackApiError?
  {
    match e
    case OpenAIError(detail) => ApiFailure(detail)
    case TimeoutError => TimedOut
    case SlackApiError(_) => SlackFailure
    case OtherError(_) => Unexpected
  }

  /** `thinking_message_ts`: the placeholder's ts when the post came back ok, else "" (falsy). */
  function PlaceholderTs(thinking: Reply<PostAck>): (ts: string)
    ensures thinking.Ok? && thinking.value.ok ==> ts == thinking.value.ts
    ensures !(thinking.Ok? && thinking.value.ok) ==> ts == ""
  {
    if thinking.Ok? && thinking.value.ok then thinking.value.ts else ""
  }

  /** A reply goes where the placeholder is when there is one, else into the thread. */
  predicate Addressed(c: Call, ts: string, req: Request)
  {
    if ts != "" then c.Update? && c.channel == req.channel && c.ts == ts
    else c.Say? && c.threadTs == req.threadTs
  }

  /** The reply an outcome is delivered as: chat_update of the placeholder, or say. */
  function Render(o: Outcome, ts: string, req: Request): (calls: seq<Call>)
    ensures |calls| == (if o.SlackFailure? then 0 else 1)
    ensures forall c | c in calls :: IsReply(c) && Addressed(c, ts, req) && Some(c.text) == ReplyText(o)
  {
    match ReplyText(o)
    case None => []
    case Some(text) => if ts != "" then [Update(req.channel, ts, text)] else [Say(text, req.threadTs)]
  }

  /**
   * Whether the exception of a reply made by an except clause (or by the
   * not-configured branch) leaves process_with_assistant: the OpenAI-error
   * and timeout clauses are unguarded, the "not configured" and "unexpected"
   * replies are guarded against a SlackApiError only, and the SlackApiError
   * clause makes no reply.
   */
  function Escapes(o: Outcome, reply: Reply<()>): (r: Option<Exception>)
    ensures r.Some? ==> reply.Raised? && r.value == reply.error
    ensures reply.Ok? || o.SlackFailure? ==> r.None?
    ensures (o.ApiFailure? || o.TimedOut?) && reply.Raised? ==> r == Some(reply.error)
    ensures (o.NotConfigured? || o.Unexpected?) && reply.Raised? ==> (r.None? <==> reply.error.SlackApiError?)
  {
    if o.SlackFailure? || reply.Ok? then None
    else if (o.NotConfigured? || o.Unexpected?) && reply.error.SlackApiError? then None
    else Some(reply.error)
  }

  /** What each collaborator answers, call by call, for one request. */
  datatype Script = Script(
    thinking: Reply<PostAck>,         // say(<thinking text>)
    createThread: Reply<string>,      // beta.threads.create()
    addMessage: Reply<()>,            // beta.threads.messages.create
    startRun: Reply<Run>,             // beta.threads.runs.create
    retrieve: nat -> Reply<RunState>, // the k-th beta.threads.runs.retrieve
    elapsed: nat -> nat,              // seconds since the run started, at the k-th timeout check
    cancel: Reply<()>,                // beta.threads.runs.cancel
    listMessages: Reply<seq<Message>>,// beta.threads.messages.list(order="desc")
    firstReply: Reply<()>,            // the first say/chat_update carrying a final text
    secondReply: Reply<()>)           // the one made after the first raised

  /** The outcome of a run that left the pending set, and the calls that took. */
  datatype Concluded = Concluded(calls: seq<Call>, result: Reply<Outcome>)

  /**
   * The final status of a run, as the try block reports it: a completed run
   * is answered with the text assembled from one message list,
   * requires_action with a fixed apology, and every other status with the
   * run's details.
   */
  function Conclude(threadId: string, run: Run, listed: Reply<seq<Message>>): (c: Concluded)
    ensures forall call | call in c.calls :: call == ListMessages(threadId)
    ensures c.calls != [] <==> run.state.status == "completed"
    ensures |c.calls| <= 1
    ensures c.result.Raised? <==> run.state.status == "completed" && listed.Raised?
    ensures c.result.Raised? ==> c.result.error == listed.error
    ensures run.state.status == "completed" && listed.Ok? ==> c.result == Ok(Answered(Assemble(listed.value, run.id)))
    ensures c.result == Ok(NeedsAction) <==> run.state.status == "requires_action"
    ensures run.state.status != "completed" && run.state.status != "requires_action"
            ==> c.result == Ok(RunEnded(EndedText(run)))
  {
    if run.state.status == "completed" then
      Concluded([ListMessages(threadId)],
                match listed
                case Raised(e) => Raised(e)
                case Ok(ms) => Ok(Answered(Assemble(ms, run.id))))
    else if run.state.status == "requires_action" then Concluded([], Ok(NeedsAction))
    else Concluded([], Ok(RunEnded(EndedText(run))))
  }

  /** What the try block leaves behind, up to the final reply. */
  datatype Session = Session(calls: seq<Call>, threads: map<string, string>, result: Reply<Outcome>)

  /** The try block of process_with_assistant, before the final reply. */
  function RunSession(threads: map<string, string>, req: Request, s: Script): (r: Session)
    requires ClockAdvances(s.elapsed)
    ensures forall c | c in r.calls :: !IsReply(c)
    ensures r.threads == Resolve(threads, req.threadTs, s.createThread).threads
  {
    var found := Resolve(threads, req.threadTs, s.createThread);
    var c0 := if req.threadTs in threads then [] else [CreateThread];
    match found.id
    case Raised(e) => Session(c0, found.threads, Raised(e))
    case Ok(id) =>
      var c1 := c0 + [AddMessage(id, req.prompt)];
      if s.addMessage.Raised? then Session(c1, found.threads, Raised(s.addMessage.error))
      else
        var c2 := c1 + [StartRun(id)];
        match s.startRun
        case Raised(e) => Session(c2, found.threads, Raised(e))
        case Ok(run) =>
          var w := WaitForRun(id, run, s.retrieve, s.elapsed, s.cancel);
          match w.end
          case Raised(e) => Session(c2 + w.calls, found.threads, Raised(e))
          case Ok(st) =>
            var c := Conclude(id, Run(run.id, st), s.listMessages);
            Session(c2 + w.calls + c.calls, found.threads, c.result)
  }

  /** The final reply and the except clauses: the reply calls, the outcome, what escapes. */
  datatype Ending = Ending(replies: seq<Call>, outcome: Outcome, escaped: Option<Exception>)

  /**
   * After the try block: deliver its outcome, or the except clause's text
   * for its exception; an exception of the first reply lands in the except
   * clauses too, which may reply once more.
   */
  function Finish(result: Reply<Outcome>, ts: string, req: Request, first: Reply<()>, second: Reply<()>): (e: Ending)
    ensures forall c | c in e.replies :: IsReply(c) && Addressed(c, ts, req)
    ensures |e.replies| <= 2
    ensures first.Ok? ==> e.replies == Render(e.outcome, ts, req)
    ensures result.Ok? && first.Ok? ==> e.outcome == result.value && e.escaped == None
    ensures result.Raised? ==> e.outcome == Caught(result.error)
    ensures result.Raised? && result.error.SlackApiError? ==> e.replies == [] && e.escaped == None
    ensures result.Ok? && first.Raised? && first.error.SlackApiError?
            ==> e.replies == Render(result.value, ts, req) && e.outcome == SlackFailure && e.escaped == None
    ensures |e.replies| == 2 ==> first.Raised? && !first.error.SlackApiError?
    ensures var last := Render(e.outcome, ts, req);
            |last| <= |e.replies| && (last != [] ==> e.replies[|e.replies| - 1] == last[0])
  {
    match result
    case Ok(o) =>
      if first.Ok? then Ending(Render(o, ts, req), o, None)
      else
        var o' := Caught(first.error);
        Ending(Render(o, ts, req) + Render(o', ts, req), o', Escapes(o', second))
    case Raised(e) =>
      var o := Caught(e);
      Ending(Render(o, ts, req), o, Escapes(o, first))
  }

  /**
   * The except clauses after Finish: an exception of the try block is
   * answered once by its own clause, whose reply may escape; an exception of
   * the first reply is answered by the clause for it after that reply, and
   * the second reply's exception may escape in turn.
   */
  lemma ExceptClauses(result: Reply<Outcome>, ts: string, req: Request, first: Reply<()>, second: Reply<()>)
    ensures var e := Finish(result, ts, req, first, second);
            result.Raised? ==>
              && e.outcome == Caught(result.error)
              && e.replies == Render(e.outcome, ts, req) && e.escaped == Escapes(e.outcome, first)
    ensures var e := Finish(result, ts, req, first, second);
            result.Ok? && first.Raised? ==>
              && e.outcome == Caught(first.error) && e.escaped == Escapes(e.outcome, second)
              && e.replies == Render(result.value, ts, req) + Render(e.outcome, ts, req)
  {
  }

  /** Everything one request does. */
  datatype Transcript = Transcript(calls: seq<Call>, threads: map<string, string>,
                                   outcome: Outcome, escaped: Option<Exception>)

  /** process_with_assistant, for a given map and given collaborator answers. */
  function Expected(configured: bool, threads: map<string, string>, req: Request, s: Script): (t: Transcript)
    requires ClockAdvances(s.elapsed)
    ensures configured ==> |t.calls| >= 1 && t.calls[0] == PostThinking(req.threadTs)
    ensures t.threads == if configured then Resolve(threads, req.threadTs, s.createThread).threads else threads
    ensures t.escaped.Some? ==> || (s.firstReply.Raised? && t.escaped.value == s.firstReply.error)
                                || (s.secondReply.Raised? && t.escaped.value == s.secondReply.error)
  {
    if !configured then
      Transcript(Render(NotConfigured, "", req), threads, NotConfigured, Escapes(NotConfigured, s.firstReply))
    else
      var b := RunSession(threads, req, s);
      var e := Finish(b.result, PlaceholderTs(s.thinking), req, s.firstReply, s.secondReply);
      Transcript([PostThinking(req.threadTs)] + b.calls + e.replies, b.threads, e.outcome, e.escaped)
  }

  /** The try block, step by step, against the shared thread map. */
  method Attempt(store: ThreadStore, req: Request, s: Script) returns (calls: seq<Call>, result: Reply<Outcome>)
    requires store.Valid() && ClockAdvances(s.elapsed)
    modifies store
    ensures store.Valid()
    ensures Session(calls, store.threads, result) == RunSession(old(store.threads), req, s)
    ensures store.creates == old(store.creates) + (if req.threadTs in old(store.threads) then 0 else 1)
  {
    calls := if req.threadTs in store.threads then [] else [CreateThread];
    var id := store.FindOrCreate(req.threadTs, s.createThread);
    if id.Raised? {
      return calls, Raised(id.error);
    }
    calls := calls + [AddMessage(id.value, req.prompt)];
    if s.addMessage.Raised? {
      return calls, Raised(s.addMessage.error);
    }
    calls := calls + [StartRun(id.value)];
    if s.startRun.Raised? {
      return calls, Raised(s.startRun.error);
    }
    var run := s.startRun.value;
    var end, polls := PollRun(id.value, run, s.retrieve, s.elapsed, s.cancel);
    calls := calls + polls;
    if end.Raised? {
      return calls, Raised(end.error);
    }
    var concluded := Conclude(id.value, Run(run.id, end.value), s.listMessages);
    calls := calls + concluded.calls;
    result := concluded.result;
  }

  /** process_with_assistant: placeholder, try block, final reply, except clauses. */
  method Process(store: ThreadStore, configured: bool, req: Request, s: Script)
    returns (calls: seq<Call>, outcome: Outcome, escaped: Option<Exception>)
    requires store.Valid() && ClockAdvances(s.elapsed)
    modifies store
    ensures store.Valid()
    ensures Transcript(calls, store.threads, outcome, escaped) == Expected(configured, old(store.threads), req, s)
    ensures store.creates == old(store.creates) + (if configured && req.threadTs !in old(store.threads) then 1 else 0)
  {
    if !configured {
      outcome := NotConfigured;
      calls := Render(outcome, "", req);
      escaped := Escapes(outcome, s.firstReply);
      return;
    }
    calls := [PostThinking(req.threadTs)];
    var ts := PlaceholderTs(s.thinking);
    var session, result := Attempt(store, req, s);
    calls := calls + session;
    var reply := s.firstReply;
    var replies: seq<Call>;
    match result {
      case Ok(o) =>
        replies := Render(o, ts, req);
        if reply.Ok? {
          calls, outcome, escaped := calls + replies, o, None;
          return;
        }
        outcome := Caught(reply.error);
        replies := replies + Render(outcome, ts, req);
        reply := s.secondReply;
      case Raised(e) =>
        outcome := Caught(e);
        replies := Render(outcome, ts, req);
    }
    calls := calls + replies;
    escaped := Escapes(outcome, reply);
  }

  lemma {:induction false} NoReplies(calls: seq<Call>)
    requires forall c | c in calls :: !IsReply(c)
    ensures Replies(calls) == []
  {
    if calls != [] {
      assert calls[0] in calls;
      NoReplies(calls[1..]);
    }
  }

  lemma {:induction false} OnlyReplies(calls: seq<Call>)
    requires forall c | c in calls :: IsReply(c)
    ensures Replies(calls) == calls
  {
    if calls != [] {
      assert calls[0] in calls;
      OnlyReplies(calls[1..]);
    }
  }

  /**
   * At most two reply calls per request: every reply edits the placeholder when
   * one was captured and is posted with say otherwise, never a mix; when
   * Slack accepts the first reply it is the only one and shows the outcome;
   * a second reply is attempted only after the first raised something other
   * than a SlackApiError; and the last reply always shows the final outcome.
   */
  lemma SingleReply(configured: bool, threads: map<string, string>, req: Request, s: Script)
    requires ClockAdvances(s.elapsed)
    ensures var t := Expected(configured, threads, req, s);
            var ts := if configured then PlaceholderTs(s.thinking) else "";
            var replies := Replies(t.calls);
            var last := Render(t.outcome, ts, req);
            && (forall c | c in replies :: Addressed(c, ts, req))
            && |replies| <= 2
            && (s.firstReply.Ok? ==> replies == last)
            && (|replies| == 2 ==> s.firstReply.Raised? && !s.firstReply.error.SlackApiError?)
            && |last| <= |replies| && (last != [] ==> replies[|replies| - 1] == last[0])
  {
    var t := Expected(configured, threads, req, s);
    if !configured {
      OnlyReplies(t.calls);
    } else {
      var b := RunSession(threads, req, s);
      var e := Finish(b.result, PlaceholderTs(s.thinking), req, s.firstReply, s.secondReply);
      RepliesAround(PostThinking(req.threadTs), b.calls, e.replies);
    }
  }

  /**
   * A SlackApiError raised in the try block leaves the request without any
   * reply, and nothing escapes.
   */
  lemma SlackErrorInSession(threads: map<string, string>, req: Request, s: Script)
    requires ClockAdvances(s.elapsed)
    requires RunSession(threads, req, s).result.Raised? && RunSession(threads, req, s).result.error.SlackApiError?
    ensures var t := Expected(true, threads, req, s);
            Replies(t.calls) == [] && t.outcome == SlackFailure && t.escaped == None
  {
    var b := RunSession(threads, req, s);
    var e := Finish(b.result, PlaceholderTs(s.thinking), req, s.firstReply, s.secondReply);
    assert e.replies == [];
    RepliesAround(PostThinking(req.threadTs), b.calls, e.replies);
  }

  /**
   * A SlackApiError raised by the first reply is not followed by another
   * reply, and nothing escapes: the failed reply is the only one.
   */
  lemma SlackErrorOnReply(threads: map<string, string>, req: Request, s: Script)
    requires ClockAdvances(s.elapsed) && RunSession(threads, req, s).result.Ok?
    requires s.firstReply.Raised? && s.firstReply.error.SlackApiError?
    ensures var t := Expected(true, threads, req, s);
            && Replies(t.calls) == Render(RunSession(threads, req, s).result.value, PlaceholderTs(s.thinking), req)
            && |Replies(t.calls)| <= 1 && t.outcome == SlackFailure && t.escaped == None
  {
    var b := RunSession(threads, req, s);
    var e := Finish(b.result, PlaceholderTs(s.thinking), req, s.firstReply, s.secondReply);
    assert e.replies == Render(b.result.value, PlaceholderTs(s.thinking), req);
    RepliesAround(PostThinking(req.threadTs), b.calls, e.replies);
  }

  /**
   * The try block stops at its first exception, which becomes its result: a
   * failing create is followed by no other call, a failing messages.create
   * by no run, a failing runs.create by no polling, and a failing retrieve
   * ends the polling with its own exception.
   */
  lemma SessionStopsAtFailure(threads: map<string, string>, req: Request, s: Script)
    requires ClockAdvances(s.elapsed)
    ensures var b := RunSession(threads, req, s);
            var found := Resolve(threads, req.threadTs, s.createThread);
            found.id.Raised? ==> b.result == Raised(found.id.error) && b.calls == [CreateThread]
    ensures var b := RunSession(threads, req, s);
            var found := Resolve(threads, req.threadTs, s.createThread);
            var c0 := if req.threadTs in threads then [] else [CreateThread];
            found.id.Ok? && s.addMessage.Raised? ==>
              b.result == Raised(s.addMessage.error) && b.calls == c0 + [AddMessage(found.id.value, req.prompt)]
    ensures var b := RunSession(threads, req, s);
            var found := Resolve(threads, req.threadTs, s.createThread);
            var c0 := if req.threadTs in threads then [] else [CreateThread];
            found.id.Ok? && s.addMessage.Ok? && s.startRun.Raised? ==>
              && b.result == Raised(s.startRun.error)
              && b.calls == c0 + [AddMessage(found.id.value, req.prompt)] + [StartRun(found.id.value)]
    ensures var b := RunSession(threads, req, s);
            Started(threads, req, s) && Poll(s.startRun.value.state, 0, s.retrieve, s.elapsed).end.Lost? ==>
              b.result == Raised(Poll(s.startRun.value.state, 0, s.retrieve, s.elapsed).end.error)
  {
  }

  /**
   * Once the OpenAI thread is found or made and the prompt is accepted, the
   * try block adds the prompt to that thread and starts a run on that same
   * thread, right after any create call.
   */
  lemma SessionForwardsPrompt(threads: map<string, string>, req: Request, s: Script)
    requires ClockAdvances(s.elapsed)
    ensures var b := RunSession(threads, req, s);
            var found := Resolve(threads, req.threadTs, s.createThread);
            var c0 := if req.threadTs in threads then [] else [CreateThread];
            found.id.Ok? && s.addMessage.Ok? ==>
              && |b.calls| >= |c0| + 2
              && b.calls[..|c0| + 2] == c0 + [AddMessage(found.id.value, req.prompt), StartRun(found.id.value)]
  {
  }

  /** The replies of placeholder + try block + replies are the replies. */
  lemma RepliesAround(head: Call, mid: seq<Call>, replies: seq<Call>)
    requires !IsReply(head) && (forall c | c in mid :: !IsReply(c)) && forall c | c in replies :: IsReply(c)
    ensures Replies([head] + mid + replies) == replies
  {
    NoReplies([head] + mid);
    OnlyReplies(replies);
    RepliesAppend([head] + mid, replies);
  }

  /** The run was created: the thread was found or made, the message added, the run started. */
  predicate Started(threads: map<string, string>, req: Request, s: Script)
  {
    Resolve(threads, req.threadTs, s.createThread).id.Ok? && s.addMessage.Ok? && s.startRun.Ok?
  }

  /** The polling loop of a started run hit the timeout. */
  ghost predicate Expires(threads: map<string, string>, req: Request, s: Script)
    requires ClockAdvances(s.elapsed)
  {
    Started(threads, req, s) && Poll(s.startRun.value.state, 0, s.retrieve, s.elapsed).end.Expired?
  }

  /**
   * The try block cancels the run exactly when its polling timed out, and
   * then raises TimeoutError, or the cancel's own exception.
   */
  lemma SessionCancels(threads: map<string, string>, req: Request, s: Script)
    requires ClockAdvances(s.elapsed)
    ensures var b := RunSession(threads, req, s);
            && Cancels(b.calls) == (if Expires(threads, req, s) then 1 else 0)
            && (Expires(threads, req, s) ==>
                  b.result == if s.cancel.Ok? then Raised(TimeoutError) else Raised(s.cancel.error))
  {
    SessionCancelCount(threads, req, s);
    if Expires(threads, req, s) {
      var id := Resolve(threads, req.threadTs, s.createThread).id.value;
      WaitProperties(id, s.startRun.value, s.retrieve, s.elapsed, s.cancel);
    }
  }

  /** The cancel count of the try block: one after a timeout, none otherwise. */
  lemma SessionCancelCount(threads: map<string, string>, req: Request, s: Script)
    requires ClockAdvances(s.elapsed)
    ensures Cancels(RunSession(threads, req, s).calls) == (if Expires(threads, req, s) then 1 else 0)
  {
    var b := RunSession(threads, req, s);
    if Started(threads, req, s) {
      var id := Resolve(threads, req.threadTs, s.createThread).id.value;
      var run := s.startRun.value;
      var w := WaitForRun(id, run, s.retrieve, s.elapsed, s.cancel);
      WaitProperties(id, run, s.retrieve, s.elapsed, s.cancel);
      var c2 := (if req.threadTs in threads then [] else [CreateThread]) + [AddMessage(id, req.prompt)] + [StartRun(id)];
      assert Cancels(c2) == 0;
      CancelsAppend(c2, w.calls);
      if w.end.Ok? {
        var cc := Conclude(id, Run(run.id, w.end.value), s.listMessages);
        assert b.calls == c2 + w.calls + cc.calls;
        assert Cancels(cc.calls) == 0;
        CancelsAppend(c2 + w.calls, cc.calls);
      } else {
        assert b.calls == c2 + w.calls;
      }
    } else {
      assert forall c | c in b.calls :: !c.CancelRun?;
    }
  }

  /** A request cancels its run once if its polling timed out, and never otherwise. */
  lemma CancelOnlyOnTimeout(configured: bool, threads: map<string, string>, req: Request, s: Script)
    requires ClockAdvances(s.elapsed)
    ensures Cancels(Expected(configured, threads, req, s).calls)
         == if configured && Expires(threads, req, s) then 1 else 0
  {
    if configured {
      var b := RunSession(threads, req, s);
      var e := Finish(b.result, PlaceholderTs(s.thinking), req, s.firstReply, s.secondReply);
      SessionCancelCount(threads, req, s);
      CancelsAround(PostThinking(req.threadTs), b.calls, e.replies);
    } else {
      CancelsAround(Say(NotConfiguredApology, req.threadTs), [], []);
      assert [Say(NotConfiguredApology, req.threadTs)] + [] + [] == Expected(configured, threads, req, s).calls;
    }
  }

  /** Only the middle of placeholder + try block + replies can hold a cancel. */
  lemma CancelsAround(head: Call, mid: seq<Call>, replies: seq<Call>)
    requires !head.CancelRun? && forall c | c in replies :: IsReply(c)
    ensures Cancels([head] + mid + replies) == Cancels(mid)
  {
    CancelsAppend([head], mid);
    CancelsAppend([head] + mid, replies);
    assert Cancels(replies) == 0;
  }

  /**
   * After a timeout and a successful cancel the user is told the request
   * took too long; a failing cancel's exception takes the timeout's place.
   */
  lemma TimeoutReported(threads: map<string, string>, req: Request, s: Script)
    requires ClockAdvances(s.elapsed) && Expires(threads, req, s)
    ensures var t := Expected(true, threads, req, s);
            t.outcome == if s.cancel.Ok? then TimedOut else Caught(s.cancel.error)
  {
    SessionCancels(threads, req, s);
    var b := RunSession(threads, req, s);
    var e := Finish(b.result, PlaceholderTs(s.thinking), req, s.firstReply, s.secondReply);
    assert b.result == Raised(if s.cancel.Ok? then TimeoutError else s.cancel.error);
    assert Expected(true, threads, req, s).outcome == e.outcome;
  }

  /**
   * The mapping is stored as soon as the OpenAI thread exists, whatever
   * happens later in the request; an existing mapping is never replaced.
   */
  lemma MappingOutlivesFailures(configured: bool, threads: map<string, string>, req: Request, s: Script)
    requires ClockAdvances(s.elapsed)
    ensures Expected(configured, threads, req, s).threads
         == if configured && req.threadTs !in threads && s.createThread.Ok?
            then threads[req.threadTs := s.createThread.value] else threads
  {
  }

  /**
   * A Slack thread already mapped reuses its OpenAI thread: no create call,
   * and the prompt goes right after the placeholder to that thread.
   */
  lemma ExistingThreadReused(threads: map<string, string>, req: Request, s: Script)
    requires ClockAdvances(s.elapsed) && req.threadTs in threads
    ensures var t := Expected(true, threads, req, s);
            && CreateThread !in t.calls
            && |t.calls| >= 2 && t.calls[1] == AddMessage(threads[req.threadTs], req.prompt)
  {
    var b := RunSession(threads, req, s);
    var e := Finish(b.result, PlaceholderTs(s.thinking), req, s.firstReply, s.secondReply);
    SessionReusesThread(threads, req, s);
    assert CreateThread !in e.replies;
    var t := Expected(true, threads, req, s);
    assert t.calls == [PostThinking(req.threadTs)] + b.calls + e.replies;
    assert t.calls[1] == b.calls[0];
  }

  /** The try block's first call for a mapped Slack thread adds the prompt to its OpenAI thread. */
  lemma SessionReusesThread(threads: map<string, string>, req: Request, s: Script)
    requires ClockAdvances(s.elapsed) && req.threadTs in threads
    ensures var b := RunSession(threads, req, s);
            CreateThread !in b.calls && |b.calls| >= 1 && b.calls[0] == AddMessage(threads[req.threadTs], req.prompt)
  {
    var id := threads[req.threadTs];
    if s.addMessage.Ok? && s.startRun.Ok? {
      WaitProperties(id, s.startRun.value, s.retrieve, s.elapsed, s.cancel);
    }
  }

  /** Without a client or an assistant id: one say, no placeholder, no OpenAI call. */
  lemma NotConfiguredSaysOnce(threads: map<string, string>, req: Request, s: Script)
    requires ClockAdvances(s.elapsed)
    ensures var t := Expected(false, threads, req, s);
            t.calls == [Say(NotConfiguredApology, req.threadTs)] && t.threads == threads
  {
  }

  /**
   * A completed run is answered with the assembled text, in the one reply
   * (an edit of the placeholder when there is one).
   */
  lemma CompletedRunAnswered(threads: map<string, string>, req: Request, s: Script)
    requires ClockAdvances(s.elapsed) && Started(threads, req, s)
    requires var p := Poll(s.startRun.value.state, 0, s.retrieve, s.elapsed);
             p.end.Settled? && p.end.state.status == "completed"
    requires s.listMessages.Ok? && s.firstReply.Ok?
    ensures var t := Expected(true, threads, req, s);
            var text := Assemble(s.listMessages.value, s.startRun.value.id);
            && t.outcome == Answered(text) && t.escaped == None
            && Replies(t.calls) == [if PlaceholderTs(s.thinking) != "" then Update(req.channel, PlaceholderTs(s.thinking), Verbatim(text))
                                    else Say(Verbatim(text), req.threadTs)]
  {
    SingleReply(true, threads, req, s);
  }

  /**
   * How a run that left the pending set is reported, when Slack accepts the
   * reply: completed runs with their assembled text (or the exception of
   * the message list), requires_action with the fixed apology, and every
   * other status with the run's last error or its id and status.
   */
  lemma SettledRunReported(threads: map<string, string>, req: Request, s: Script)
    requires ClockAdvances(s.elapsed) && Started(threads, req, s) && s.firstReply.Ok?
    requires Poll(s.startRun.value.state, 0, s.retrieve, s.elapsed).end.Settled?
    ensures var t := Expected(true, threads, req, s);
            var run := Run(s.startRun.value.id, Poll(s.startRun.value.state, 0, s.retrieve, s.elapsed).end.state);
            t.outcome == if run.state.status == "completed" then
                           (if s.listMessages.Ok? then Answered(Assemble(s.listMessages.value, run.id))
                            else Caught(s.listMessages.error))
                         else if run.state.status == "requires_action" then NeedsAction
                         else RunEnded(EndedText(run))
  {
    var id := Resolve(threads, req.threadTs, s.createThread).id.value;
    WaitProperties(id, s.startRun.value, s.retrieve, s.elapsed, s.cancel);
  }
}
