/** One job, cancelled at the wrong moment. */
module JobCancelExamples {
  import opened JobCancels
  import opened JobExamples
  import opened JobProtocol
  import opened LeaseQueue
  import opened ResultStore

  /**
   The drain decided on a retry, then the operator cancelled, then the retry went through:
   the job waits on the global queue again with its cancel recorded and its old stream
   still running. The resubmission, pending at the cancel, was the other placement.
   */
  lemma CancelAfterTheDrainIsLost(loadAttempts: nat)
    ensures Elsewhere(Next(Next(Dispatched(loadAttempts), DoStart(0)), DoDrain(W1, HOST, true, 1, 0)), JOB)
    ensures var steps := [DoStart(0), DoDrain(W1, HOST, true, 1, 0), DoCancelRunning(JOB), DoAdvance(1, G2, 0)];
            && ValidRun(Dispatched(loadAttempts), steps)
            && var s := Exec(Dispatched(loadAttempts), steps);
               && Leasable(s.rows, Global, G2, 0) && Request(s.rows[G2]) == JOB && CancelRecorded(s, JOB)
               && 0 in s.tasks && s.tasks[0].Streaming?
  {
    var drained := [DoStart(0), DoDrain(W1, HOST, true, 1, 0)];
    RunningIsDrained(loadAttempts);
    StartedAndDrained(loadAttempts);
    assert Next(Dispatched(loadAttempts), DoStart(0)) == Running(loadAttempts);
    CancelledThenResubmitted(loadAttempts);
    assert drained + [DoCancelRunning(JOB), DoAdvance(1, G2, 0)]
        == [DoStart(0), DoDrain(W1, HOST, true, 1, 0), DoCancelRunning(JOB), DoAdvance(1, G2, 0)];
    RunsConcat(Dispatched(loadAttempts), drained, [DoCancelRunning(JOB), DoAdvance(1, G2, 0)]);
  }

  lemma CancelledThenResubmitted(loadAttempts: nat)
    ensures Elsewhere(RunningDrained(loadAttempts), JOB)
    ensures var steps := [DoCancelRunning(JOB), DoAdvance(1, G2, 0)];
            && ValidRun(RunningDrained(loadAttempts), steps)
            && var s := Exec(RunningDrained(loadAttempts), steps);
               && Leasable(s.rows, Global, G2, 0) && Request(s.rows[G2]) == JOB && CancelRecorded(s, JOB)
               && 0 in s.tasks && s.tasks[0].Streaming?
  {
    var s := RunningDrained(loadAttempts);
    assert Retrying(s.tasks[1], JOB);
    RunOfTwo(s, DoCancelRunning(JOB), DoAdvance(1, G2, 0));
  }

  function Running(loadAttempts: nat): State
    ensures var s := Running(loadAttempts);
            && s.rows == Dispatched(loadAttempts).rows && s.used == {G1, W1} && JOB in s.buffered && s.resubmits == map[JOB := 0]
            && s.tasks == map[0 := Streaming(W1, HOST, G1, JOB)] && s.inflight == map[JOB := false]
            && JOB in s.results && s.results[JOB].status == Processing
  {
    Start(Dispatched(loadAttempts), 0)
  }

  /** The drain decided on a retry: the rows are gone, the resubmission is pending. */
  function RunningDrained(loadAttempts: nat): State {
    Running(loadAttempts).(rows := map[], tasks := map[0 := Streaming(W1, HOST, G1, JOB), 1 := Resubmit(JobEnv(1), true)])
  }

  lemma RunningIsDrained(loadAttempts: nat)
    ensures var s, a := Running(loadAttempts), DoDrain(W1, HOST, true, 1, 0);
            Enabled(s, a) && Next(s, a) == RunningDrained(loadAttempts)
  {
    var s := Running(loadAttempts);
    assert DrainDecision(s, s.rows[W1], true, 0) == DrainAction.Retry;
    var n := Drain(s, W1, HOST, true, 1, 0);
    assert n.rows == map[];
    assert n.tasks == RunningDrained(loadAttempts).tasks;
  }

  /** The running job's lease lapses after the cancel, and an evict takes its row as if it waited: the anchor is free again. */
  lemma CancelledJobIsEvicted(loadAttempts: nat)
    ensures var steps := [DoStart(0), DoCancelRunning(JOB), DoEvict(W1, HOST, 10)];
            && ValidRun(Dispatched(loadAttempts), steps)
            && var s := Exec(Dispatched(loadAttempts), steps);
               && Leasable(s.rows, Global, G1, 10) && Request(s.rows[G1]) == JOB && CancelRecorded(s, JOB)
               && 0 in s.tasks && s.tasks[0].Streaming?
  {
    RunOfThree(Dispatched(loadAttempts), DoStart(0), DoCancelRunning(JOB), DoEvict(W1, HOST, 10));
  }

  /** Cancelled while running, its worker gone: the record is dropped, the verdict not stored yet. */
  function CancelledMidStream(loadAttempts: nat): State
    ensures var s := CancelledMidStream(loadAttempts);
            && s.rows == Dispatched(loadAttempts).rows
            && s.tasks == map[0 := Settle(JOB, Fault(CANCELLED), RowsOf(HOST, W1, G1), true, false)]
            && s.inflight == map[] && JOB in s.results && s.results[JOB].status == Processing
  {
    StreamEnd(CancelRunning(Running(loadAttempts), JOB), 0, Closed, false)
  }

  lemma CancelledMidStreamIsReachable(loadAttempts: nat)
    ensures var steps := [DoStart(0), DoCancelRunning(JOB), DoStreamEnd(0, Closed, false)];
            && ValidRun(Dispatched(loadAttempts), steps)
            && Exec(Dispatched(loadAttempts), steps) == CancelledMidStream(loadAttempts)
  {
    RunOfThree(Dispatched(loadAttempts), DoStart(0), DoCancelRunning(JOB), DoStreamEnd(0, Closed, false));
  }

  /**
   The record a cancel is noted on is dropped when the stream ends, before the cancelled
   result is stored: in that window nothing guards the job, and a drain requeues it.
   */
  lemma CancelledJobRequeuedInTheWindow(loadAttempts: nat)
    ensures var s := CancelledMidStream(loadAttempts);
            && !Guarded(s, JOB) && Enabled(s, DoDrain(W1, HOST, true, 1, 0))
            && 1 in Next(s, DoDrain(W1, HOST, true, 1, 0)).tasks
            && Next(s, DoDrain(W1, HOST, true, 1, 0)).tasks[1] == Resubmit(Retried(ENV.(globalMsgID := G1)), true)
  {
    var s := CancelledMidStream(loadAttempts);
    assert DrainDecision(s, s.rows[W1], true, 0) == DrainAction.Retry;
  }

  /** The requeued job, waiting, while the first stream has not ended. */
  function Requeued(loadAttempts: nat): State {
    RunningDrained(loadAttempts).(
      rows := map[G2 := Row(Global, Decoded(JobEnv(1)), 0, 0, 0, 0)], used := {G1, W1, G2}, resubmits := map[JOB := 1],
      results := Flipped(RunningDrained(loadAttempts).results, JOB, Processing, Pending),
      tasks := map[0 := Streaming(W1, HOST, G1, JOB)])
  }

  /** On another worker's queue, not yet leased. */
  function PlacedAgain(loadAttempts: nat): State {
    Requeued(loadAttempts).(
      rows := map[G2 := Row(Global, Decoded(JobEnv(1)), 0, 0, 10, 1),
                  W2 := Row(Worker(PEER), Decoded(JobEnv(1).(globalMsgID := G2)), 0, 0, 0, 0)],
      used := {G1, W1, G2, W2})
  }

  /** Leased there, its load running. */
  function RunningTwice(loadAttempts: nat): State {
    PlacedAgain(loadAttempts).(
      rows := map[G2 := Row(Global, Decoded(JobEnv(1)), 0, 0, 10, 1),
                  W2 := Row(Worker(PEER), Decoded(JobEnv(1).(globalMsgID := G2)), 0, 0, 10, 1)],
      tasks := map[0 := Streaming(W1, HOST, G1, JOB), 2 := Loading(W2, PEER, JobEnv(1).(globalMsgID := G2))])
  }

  lemma RequeuedIsReachable(loadAttempts: nat)
    ensures Enabled(RunningDrained(loadAttempts), DoAdvance(1, G2, 0))
    ensures Next(RunningDrained(loadAttempts), DoAdvance(1, G2, 0)) == Requeued(loadAttempts)
  {
    var n := Advance(RunningDrained(loadAttempts), 1, G2, 0);
    assert n.rows == Requeued(loadAttempts).rows;
    assert n.tasks == Requeued(loadAttempts).tasks;
    assert n.used == {G1, W1, G2} && n.resubmits == map[JOB := 1];
  }

  lemma RunningTwiceIsReachable(loadAttempts: nat)
    ensures exists steps: seq<Step> ::
              ValidRun(Dispatched(loadAttempts), steps) && Exec(Dispatched(loadAttempts), steps) == RunningTwice(loadAttempts)
  {
    StartedAndDrained(loadAttempts);
    DispatchedAgain(loadAttempts);
    RunsConcat(Dispatched(loadAttempts), [DoStart(0), DoDrain(W1, HOST, true, 1, 0)],
               [DoAdvance(1, G2, 0), DoPlace(G2, PEER, 0, W2, 10, 0), DoLease(W2, PEER, 2, 10, 0)]);
  }

  lemma StartedAndDrained(loadAttempts: nat)
    ensures var steps := [DoStart(0), DoDrain(W1, HOST, true, 1, 0)];
            ValidRun(Dispatched(loadAttempts), steps) && Exec(Dispatched(loadAttempts), steps) == RunningDrained(loadAttempts)
  {
    RunningIsDrained(loadAttempts);
    assert Next(Dispatched(loadAttempts), DoStart(0)) == Running(loadAttempts);
    RunOfTwo(Dispatched(loadAttempts), DoStart(0), DoDrain(W1, HOST, true, 1, 0));
  }

  lemma DispatchedAgain(loadAttempts: nat)
    ensures var steps := [DoAdvance(1, G2, 0), DoPlace(G2, PEER, 0, W2, 10, 0), DoLease(W2, PEER, 2, 10, 0)];
            ValidRun(RunningDrained(loadAttempts), steps) && Exec(RunningDrained(loadAttempts), steps) == RunningTwice(loadAttempts)
  {
    RequeuedIsReachable(loadAttempts);
    RequeuedIsPlaced(loadAttempts);
    PlacedAgainIsLeased(loadAttempts);
    RunOfThree(RunningDrained(loadAttempts), DoAdvance(1, G2, 0), DoPlace(G2, PEER, 0, W2, 10, 0), DoLease(W2, PEER, 2, 10, 0));
  }

  lemma RequeuedIsPlaced(loadAttempts: nat)
    ensures var s, a := Requeued(loadAttempts), DoPlace(G2, PEER, 0, W2, 10, 0);
            Enabled(s, a) && Next(s, a) == PlacedAgain(loadAttempts)
  {
    var n := Place(Requeued(loadAttempts), G2, PEER, 0, W2, 10, 0);
    assert n.rows == PlacedAgain(loadAttempts).rows;
    assert n.used == {G1, W1, G2, W2};
  }

  lemma PlacedAgainIsLeased(loadAttempts: nat)
    ensures var s, b := PlacedAgain(loadAttempts), DoLease(W2, PEER, 2, 10, 0);
            Enabled(s, b) && Next(s, b) == RunningTwice(loadAttempts)
  {
    var s := PlacedAgain(loadAttempts);
    assert JOB in s.buffered;
    var n := Lease(s, W2, PEER, 2, 10, 0);
    assert n.rows == RunningTwice(loadAttempts).rows;
    assert n.tasks == RunningTwice(loadAttempts).tasks;
    assert n.buffered == s.buffered;
  }

  /**
   The second dispatch starts, and then the first pump ends: it drops the request's record,
   and the job runs on with no record a cancel could be noted on.
   */
  lemma RunningJobWithoutARecord(loadAttempts: nat)
    ensures var steps := [DoStart(2), DoStreamEnd(0, Closed, false)];
            && ValidRun(RunningTwice(loadAttempts), steps)
            && var s := Exec(RunningTwice(loadAttempts), steps);
               2 in s.tasks && s.tasks[2].Streaming? && s.tasks[2].rid == JOB && JOB !in s.inflight
  {
    var s := Start(RunningTwice(loadAttempts), 2);
    assert s.tasks == map[0 := Streaming(W1, HOST, G1, JOB), 2 := Streaming(W2, PEER, G2, JOB)];
    RunOfTwo(RunningTwice(loadAttempts), DoStart(2), DoStreamEnd(0, Closed, false));
  }
}
