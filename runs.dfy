/**
 * The life of one Assistant run (process_with_assistant, steps 4 and 5):
 * statuses, the fixed poll interval and timeout, the polling loop with its
 * one cancel on timeout, and the text of a run that ended badly.
 *
 * The remote service is an oracle: `retrieve(k)` is what the k-th
 * `runs.retrieve` call returns. The clock is an oracle too: `elapsed(k)` is
 * `time.time() - start_time` at the timeout check made after k sleeps;
 * after k sleeps at least k × POLLING_INTERVAL_S seconds have passed.
 */
module Runs {
  import opened Base
  import opened Remote

  /** POLLING_INTERVAL_S */
  const PollingInterval: nat := 2
  /** RUN_TIMEOUT_S */
  const RunTimeout: nat := 120
  /** The most `runs.retrieve` calls one request can make. */
  const MaxRetrieves: nat := RunTimeout / PollingInterval + 1

  /** `run.last_error` */
  datatype RunError = RunError(code: string, message: string)
  /** What `runs.retrieve` reports about a run. */
  datatype RunState = RunState(status: string, lastError: Option<RunError>)
  datatype Run = Run(id: string, state: RunState)

  /** The statuses the loop keeps waiting on. */
  predicate Pending(status: string)
  {
    status == "queued" || status == "in_progress" || status == "cancelling"
  }

  /** After k sleeps at least k × POLLING_INTERVAL_S seconds have passed. */
  ghost predicate ClockAdvances(elapsed: nat -> nat)
  {
    forall k: nat :: k * PollingInterval <= elapsed(k)
  }

  /** How the polling loop ends, before the cancel on timeout. */
  datatype PollEnd =
    | Settled(state: RunState)   // the status left the pending set
    | Expired(state: RunState)   // the timeout check fired
    | Lost(error: Exception)     // a retrieve raised
  /** The end of the loop and how many retrieves it made. */
  datatype Polled = Polled(end: PollEnd, retrieves: nat)

  /** The polling loop from its k-th timeout check on, as a function. */
  function Poll(state: RunState, k: nat, retrieve: nat -> Reply<RunState>, elapsed: nat -> nat): (p: Polled)
    requires ClockAdvances(elapsed) && k <= MaxRetrieves
    ensures k <= p.retrieves <= MaxRetrieves
    ensures p.end.Settled? ==> !Pending(p.end.state.status)
    ensures p.end.Expired? ==> Pending(p.end.state.status) && elapsed(p.retrieves) > RunTimeout
    ensures forall j | k <= j < p.retrieves :: elapsed(j) <= RunTimeout
    decreases MaxRetrieves - k
  {
    if !Pending(state.status) then Polled(Settled(state), k)
    else if elapsed(k) > RunTimeout then Polled(Expired(state), k)
    else
      match retrieve(k)
      case Raised(e) => Polled(Lost(e), k + 1)
      case Ok(next) => Poll(next, k + 1, retrieve, elapsed)
  }

  /** n identical retrieve calls for one run. */
  function Retrievals(threadId: string, runId: string, n: nat): (r: seq<Call>)
    ensures |r| == n
    ensures forall c | c in r :: c == RetrieveRun(threadId, runId)
  {
    if n == 0 then [] else Retrievals(threadId, runId, n - 1) + [RetrieveRun(threadId, runId)]
  }

  /** What waiting for a run yields: its final state or an exception, and the calls made. */
  datatype Waited = Waited(end: Reply<RunState>, calls: seq<Call>)

  /**
   * Polling followed, on timeout, by one cancel: TimeoutError is raised when
   * the cancel succeeds, the cancel's own exception when it does not.
   */
  function WaitForRun(threadId: string, run: Run, retrieve: nat -> Reply<RunState>,
                      elapsed: nat -> nat, cancel: Reply<()>): (w: Waited)
    requires ClockAdvances(elapsed)
    ensures forall c | c in w.calls :: c.RetrieveRun? || c.CancelRun?
  {
    var p := Poll(run.state, 0, retrieve, elapsed);
    var polls := Retrievals(threadId, run.id, p.retrieves);
    match p.end
    case Settled(st) => Waited(Ok(st), polls)
    case Lost(e) => Waited(Raised(e), polls)
    case Expired(_) =>
      Waited(if cancel.Raised? then Raised(cancel.error) else Raised(TimeoutError),
             polls + [CancelRun(threadId, run.id)])
  }

  /** The polling loop of process_with_assistant. */
  method PollRun(threadId: string, run: Run, retrieve: nat -> Reply<RunState>,
                 elapsed: nat -> nat, cancel: Reply<()>)
    returns (end: Reply<RunState>, calls: seq<Call>)
    requires ClockAdvances(elapsed)
    ensures Waited(end, calls) == WaitForRun(threadId, run, retrieve, elapsed, cancel)
  {
    var state := run.state;
    var k: nat := 0;
    calls := [];
    while Pending(state.status)
      invariant k <= MaxRetrieves
      invariant calls == Retrievals(threadId, run.id, k)
      invariant Poll(state, k, retrieve, elapsed) == Poll(run.state, 0, retrieve, elapsed)
      decreases MaxRetrieves - k
    {
      PollPending(state, k, retrieve, elapsed);
      if elapsed(k) > RunTimeout {
        calls := calls + [CancelRun(threadId, run.id)];
        end := if cancel.Raised? then Raised(cancel.error) else Raised(TimeoutError);
        return;
      }
      // time.sleep(POLLING_INTERVAL_S): elapsed(k + 1) is read after it
      calls := calls + [RetrieveRun(threadId, run.id)];
      var next := retrieve(k);
      k := k + 1;
      if next.Raised? {
        end := Raised(next.error);
        return;
      }
      state := next.value;
    }
    end := Ok(state);
  }

  /** One turn of the loop, read off the definition of `Poll`. */
  lemma PollPending(state: RunState, k: nat, retrieve: nat -> Reply<RunState>, elapsed: nat -> nat)
    requires ClockAdvances(elapsed) && k <= MaxRetrieves && Pending(state.status)
    ensures elapsed(k) > RunTimeout ==> Poll(state, k, retrieve, elapsed) == Polled(Expired(state), k)
    ensures elapsed(k) <= RunTimeout ==> k < MaxRetrieves
    ensures elapsed(k) <= RunTimeout && retrieve(k).Raised? ==>
              Poll(state, k, retrieve, elapsed) == Polled(Lost(retrieve(k).error), k + 1)
    ensures elapsed(k) <= RunTimeout && retrieve(k).Ok? ==>
              Poll(state, k, retrieve, elapsed) == Poll(retrieve(k).value, k + 1, retrieve, elapsed)
  {
  }

  /**
   * The loop ends normally only on a non-pending status, makes at most
   * RUN_TIMEOUT_S / POLLING_INTERVAL_S + 1 retrieves, and cancels the run
   * exactly once when, and only when, the timeout fired.
   */
  lemma WaitProperties(threadId: string, run: Run, retrieve: nat -> Reply<RunState>,
                       elapsed: nat -> nat, cancel: Reply<()>)
    requires ClockAdvances(elapsed)
    ensures var w := WaitForRun(threadId, run, retrieve, elapsed, cancel);
            var p := Poll(run.state, 0, retrieve, elapsed);
            && (w.end.Ok? ==> !Pending(w.end.value.status))
            && |w.calls| <= MaxRetrieves + 1
            && Cancels(w.calls) == (if p.end.Expired? then 1 else 0)
            && (p.end.Expired? && cancel.Ok? ==> w.end == Raised(TimeoutError))
            && (forall c | c in w.calls :: c.RetrieveRun? || c.CancelRun?)
  {
    var p := Poll(run.state, 0, retrieve, elapsed);
    var polls := Retrievals(threadId, run.id, p.retrieves);
    assert Cancels(polls) == 0;
    CancelsAppend(polls, [CancelRun(threadId, run.id)]);
  }

  /** A run already past the pending set is never retrieved. */
  lemma SettledRunNotPolled(threadId: string, run: Run, retrieve: nat -> Reply<RunState>,
                            elapsed: nat -> nat, cancel: Reply<()>)
    requires ClockAdvances(elapsed) && !Pending(run.state.status)
    ensures WaitForRun(threadId, run, retrieve, elapsed, cancel) == Waited(Ok(run.state), [])
  {
  }

  /**
   * The timeout test is strict: with a clock that advances exactly
   * POLLING_INTERVAL_S per sleep and a run that never leaves the pending
   * set, the check at 120 seconds still lets one more retrieve through, so
   * the loop makes all MaxRetrieves retrieves before it gives up.
   */
  lemma {:induction false} StuckRunUsesWholeBudget(state: RunState, k: nat,
                                                   retrieve: nat -> Reply<RunState>, elapsed: nat -> nat)
    requires forall j: nat :: elapsed(j) == j * PollingInterval
    requires forall j: nat :: retrieve(j).Ok? && Pending(retrieve(j).value.status)
    requires Pending(state.status) && k <= MaxRetrieves
    ensures ClockAdvances(elapsed)
    ensures Poll(state, k, retrieve, elapsed).end.Expired?
    ensures Poll(state, k, retrieve, elapsed).retrieves == MaxRetrieves
    decreases MaxRetrieves - k
  {
    assert elapsed(k) == 2 * k;
    if elapsed(k) <= RunTimeout {
      var next := retrieve(k).value;
      StuckRunUsesWholeBudget(next, k + 1, retrieve, elapsed);
      assert Poll(state, k, retrieve, elapsed) == Poll(next, k + 1, retrieve, elapsed);
    } else {
      assert k == MaxRetrieves;
    }
  }

  /** `Assistant Run {id} ended with status: {status}`, or the run's last error. */
  function EndedText(run: Run): (text: string)
    ensures run.state.lastError.Some? ==>
              && |text| >= 12 && text[..12] == "Run failed: "
              && |text| >= |run.state.lastError.value.message|
              && text[|text| - |run.state.lastError.value.message|..] == run.state.lastError.value.message
    ensures run.state.lastError.None? ==>
              && |text| >= 14 && text[..14] == "Assistant Run "
              && |text| >= |run.state.status| && text[|text| - |run.state.status|..] == run.state.status
  {
    match run.state.lastError
    case Some(err) => "Run failed: " + err.code + " - " + err.message
    case None => "Assistant Run " + run.id + " ended with status: " + run.state.status
  }
}
