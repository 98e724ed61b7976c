/**
 The two-level durable job protocol as a state machine.

 A step is one committed transaction, or one critical section, together with the
 decision that led to it. What a goroutine still has to do after such a step is a
 [Task]: anything may run between two steps of a task, so a result write, the
 publication of the terminal frame and the deletion of the rows are separate
 steps, in the source's order. Clock readings, fresh row ids, placement choices
 and worker outcomes are inputs of the steps.
 */
module JobProtocol {
  import opened EnvelopeCodec
  import opened LeaseQueue
  import opened ResultStore
  import opened Wrappers
  import Sweeper

  type TaskId = nat

  /** Re-placements an in-flight job gets after losing its worker, the first dispatch included. */
  const DISCONNECT_REQUEUE_BUDGET: int := 3

  const CANCELLED := "cancelled by operator"

  /** What a job ends with. */
  datatype Verdict = Answer(body: Bytes) | Fault(error: string)

  /** The rows a finishing job still has on disk, and whether its in-flight record is dropped with them. */
  datatype After = After(worker: Option<(WorkerId, MsgId)>, anchor: Option<MsgId>, finish: bool)

  datatype Task =
    // A leased worker row on its way through the device-set gate and the model load.
    | Loading(wid: MsgId, w: WorkerId, env: Envelope)
    // An assigned job whose chunks are being pumped.
    | Streaming(wid: MsgId, w: WorkerId, gid: MsgId, rid: RequestId)
    // About to store the result, then maybe publish, then delete the rows.
    | Settle(rid: RequestId, verdict: Verdict, after: After, publish: bool, rearm: bool)
    // The result is stored; about to append the terminal frame.
    | Announce(rid: RequestId, after: After, rearm: bool)
    // About to delete the rows.
    | Drop(rid: RequestId, after: After)
    // An operator's cancel: the rows are gone, the result is not written yet.
    | CancelSettle(rid: RequestId)
    // A retry: the rows are gone, the fresh global row is not submitted yet.
    | Resubmit(env: Envelope, revert: bool)

  datatype State = State(
    rows: Rows,
    used: set<MsgId>,                  // every row id ever handed out
    results: Results,
    decided: set<RequestId>,           // requests whose stored result has ever been terminal
    buffered: set<RequestId>,          // requests with a replay buffer
    published: set<RequestId>,         // requests whose terminal frame has ever been appended
    inflight: map<RequestId, bool>,    // in-flight records, with the operator's cancel flag
    tasks: map<TaskId, Task>,
    stranded: set<MsgId>,              // leased worker rows whose owner is gone
    resubmits: map<RequestId, nat>,    // every submitted request, with how often it was resubmitted
    loadAttempts: nat)

  function Init(loadAttempts: nat): State {
    State(map[], {}, map[], {}, {}, {}, map[], map[], {}, map[], loadAttempts)
  }

  // --- Reading rows ---

  function Request(row: Row): RequestId {
    if row.body.Decoded? then row.body.env.requestID else []
  }

  function Attempts(row: Row): int {
    if row.body.Decoded? then row.body.env.attempts else 0
  }

  /** The uint8 counter: it wraps. */
  function NextAttempt(a: Byte): Byte { (a + 1) % 256 }

  /** The envelope a retry submits. */
  function Retried(env: Envelope): Envelope {
    env.(attempts := NextAttempt(env.attempts), globalMsgID := [], queuedBits := 0)
  }

  predicate IsFresh(s: State, id: MsgId) { id != [] && id !in s.used }

  // --- Steps ---

  datatype StreamEnding = Terminal(body: Bytes, error: string) | Closed

  datatype Step =
    | DoSubmit(env: Envelope, id: MsgId, now: int)
    | DoPlace(gid: MsgId, w: WorkerId, queuedBits: Bits64, id: MsgId, duration: int, now: int)
    | DoFailUnbenchable(gid: MsgId, error: string, t: TaskId, now: int)
    | DoSteal(wid: MsgId, src: WorkerId, dst: WorkerId, id: MsgId, now: int)
    | DoLease(wid: MsgId, w: WorkerId, t: TaskId, duration: int, now: int)
    | DoBounce(t: TaskId, delay: int, now: int)
    | DoLoadFailed(t: TaskId, error: string)
    | DoAbort(t: TaskId)
    | DoStart(t: TaskId)
    | DoAssignFailed(t: TaskId, error: string)
    | DoStreamEnd(t: TaskId, ending: StreamEnding, online: bool)
    | DoAdvance(t: TaskId, id: MsgId, now: int)
    | DoDrain(wid: MsgId, w: WorkerId, includeLeased: bool, t: TaskId, now: int)
    | DoEvict(wid: MsgId, w: WorkerId, now: int)
    | DoCancelQueued(id: MsgId, q: QueueName, t: TaskId, now: int)
    | DoCancelRunning(rid: RequestId)
    | DoReapBuffer(rid: RequestId, t: TaskId)
    | DoSweepBuffer(rid: RequestId)
    | DoCleanup(cutoff: int)
    | DoExtend(wid: MsgId, w: WorkerId, until: int)
    | DoReestimate(wid: MsgId, w: WorkerId, queuedBits: Bits64)
    | DoCrash
    | DoReap(id: MsgId, q: QueueName, t: TaskId, now: int)

  /** What must hold for the step to be taken at all: the row it peeked is there, the ids it is given are new. */
  predicate Enabled(s: State, step: Step) {
    match step
    case DoSubmit(env, id, _) =>
      && IsFresh(s, id)
      && env.requestID != [] && env.requestID !in s.resubmits && env.requestID !in s.results
      && env.globalMsgID == [] && env.attempts == 0
    case DoPlace(gid, _, _, id, _, now) => Visible(s.rows, Global, gid, now) && IsFresh(s, id)
    case DoFailUnbenchable(gid, _, t, now) => Visible(s.rows, Global, gid, now) && t !in s.tasks
    case DoSteal(wid, src, _, id, _) => On(s.rows, Worker(src), wid) && IsFresh(s, id)
    case DoLease(wid, w, t, _, now) => Leasable(s.rows, Worker(w), wid, now) && t !in s.tasks
    case DoBounce(t, _, _) => t in s.tasks && s.tasks[t].Loading?
    case DoLoadFailed(t, _) => t in s.tasks && s.tasks[t].Loading?
    case DoAbort(t) => t in s.tasks && s.tasks[t].Loading?
    case DoStart(t) => t in s.tasks && s.tasks[t].Loading?
    case DoAssignFailed(t, _) => t in s.tasks && s.tasks[t].Streaming?
    case DoStreamEnd(t, _, _) => t in s.tasks && s.tasks[t].Streaming?
    case DoAdvance(t, id, _) =>
      t in s.tasks && !s.tasks[t].Loading? && !s.tasks[t].Streaming? && (s.tasks[t].Resubmit? ==> IsFresh(s, id))
    case DoDrain(wid, w, _, t, _) => On(s.rows, Worker(w), wid) && t !in s.tasks
    case DoEvict(wid, w, now) => Visible(s.rows, Worker(w), wid, now)
    case DoCancelQueued(id, q, t, now) => Visible(s.rows, q, id, now) && t !in s.tasks
    case DoCancelRunning(rid) => rid in s.inflight
    case DoReapBuffer(rid, t) => rid in s.buffered && rid in s.resubmits && t !in s.tasks
    case DoSweepBuffer(rid) => rid in s.published
    case DoCleanup(_) => true
    case DoExtend(wid, w, _) => true
    case DoReestimate(wid, w, _) => true
    case DoCrash => true
    case DoReap(id, q, t, now) => Abandoned(s.rows, q, id, now) && t !in s.tasks
  }

  function Next(s: State, step: Step): State
    requires Enabled(s, step)
  {
    match step
    case DoSubmit(env, id, now) => Submit(s, env, id, now)
    case DoPlace(gid, w, queuedBits, id, duration, now) => Place(s, gid, w, queuedBits, id, duration, now)
    case DoFailUnbenchable(gid, error, t, _) => FailUnbenchable(s, gid, error, t)
    case DoSteal(wid, src, dst, id, now) => Steal(s, wid, src, dst, id, now)
    case DoLease(wid, w, t, duration, now) => Lease(s, wid, w, t, duration, now)
    case DoBounce(t, delay, now) => Bounce(s, t, delay, now)
    case DoLoadFailed(t, error) => LoadFailed(s, t, error)
    case DoAbort(t) => Abort(s, t)
    case DoStart(t) => Start(s, t)
    case DoAssignFailed(t, error) => AssignFailed(s, t, error)
    case DoStreamEnd(t, ending, online) => StreamEnd(s, t, ending, online)
    case DoAdvance(t, id, now) => Advance(s, t, id, now)
    case DoDrain(wid, w, includeLeased, t, now) => Drain(s, wid, w, includeLeased, t, now)
    case DoEvict(wid, w, now) => Evict(s, wid, w, now)
    case DoCancelQueued(id, q, t, _) => CancelQueued(s, id, q, t)
    case DoCancelRunning(rid) => CancelRunning(s, rid)
    case DoReapBuffer(rid, t) => ReapBuffer(s, rid, t)
    case DoSweepBuffer(rid) => s.(buffered := s.buffered - {rid})
    case DoCleanup(cutoff) => s.(results := Pruned(s.results, cutoff))
    case DoExtend(wid, w, until) => s.(rows := Extended(s.rows, Worker(w), wid, until))
    case DoReestimate(wid, w, queuedBits) => Reestimate(s, wid, w, queuedBits)
    case DoCrash => Crash(s)
    case DoReap(id, q, t, _) => Reap(s, id, q, t)
  }

  /** The gateway's submit: buffer, pending result, unleased global row. */
  function Submit(s: State, env: Envelope, id: MsgId, now: int): State {
    s.(buffered := s.buffered + {env.requestID},
       results := Created(s.results, env.requestID),
       rows := Inserted(s.rows, id, Global, Decoded(env), env.priority, now),
       used := s.used + {id},
       resubmits := s.resubmits[env.requestID := 0])
  }

  /** Lease the global row and insert a worker row naming it; a lost race changes nothing. */
  function Place(s: State, gid: MsgId, w: WorkerId, queuedBits: Bits64, id: MsgId, duration: int, now: int): State {
    if gid !in s.rows || s.rows[gid].body.Garbage? then s
    else
      var env := s.rows[gid].body.env.(globalMsgID := gid, queuedBits := queuedBits);
      s.(rows := LeasedAndSubmitted(s.rows, Global, gid, duration, Worker(w), env, id, now), used := s.used + {id})
  }

  function FailUnbenchable(s: State, gid: MsgId, error: string, t: TaskId): State
    requires gid in s.rows
  {
    s.(tasks := s.tasks[t := Settle(Request(s.rows[gid]), Fault(error), After(None, Some(gid), false), true, true)])
  }

  function Steal(s: State, wid: MsgId, src: WorkerId, dst: WorkerId, id: MsgId, now: int): State
    requires wid in s.rows
  {
    if s.rows[wid].body.Garbage? then s
    else
      s.(rows := Moved(s.rows, Worker(src), Worker(dst), wid, s.rows[wid].body.env.priority, id, now),
         used := s.used + {id})
  }

  function RowsOf(w: WorkerId, wid: MsgId, gid: MsgId): After {
    After(Some((w, wid)), Some(gid), false)
  }

  /**
   What a dispatch does with the row it leased. A job without a replay buffer is
   re-armed when its result is still live, dropped when it is answered or gone.
   */
  function DispatchOf(s: State, wid: MsgId, w: WorkerId, env: Envelope): Task {
    var rid := env.requestID;
    if rid in s.buffered then Loading(wid, w, env)
    else if rid !in s.results then
      Settle(rid, Fault("no replay buffer for request"), RowsOf(w, wid, env.globalMsgID), false, false)
    else if IsTerminal(s.results[rid].status) then Drop(rid, RowsOf(w, wid, env.globalMsgID))
    else Loading(wid, w, env)
  }

  function Lease(s: State, wid: MsgId, w: WorkerId, t: TaskId, duration: int, now: int): State
    requires Leasable(s.rows, Worker(w), wid, now)
  {
    var leased := s.(rows := Leased(s.rows, Worker(w), wid, now, duration));
    match s.rows[wid].body
    case Garbage(_) => s.(rows := Deleted(leased.rows, Worker(w), wid))
    case Decoded(env) =>
      var task := DispatchOf(s, wid, w, env);
      leased.(tasks := s.tasks[t := task],
              buffered := if task.Loading? then s.buffered + {env.requestID} else s.buffered)
  }

  function Bounce(s: State, t: TaskId, delay: int, now: int): State
    requires t in s.tasks && s.tasks[t].Loading?
  {
    var d := s.tasks[t];
    s.(rows := Rearmed(s.rows, Worker(d.w), d.wid, now + delay), tasks := s.tasks - {t})
  }

  predicate RetryLeft(s: State, env: Envelope) { (env.attempts as int) + 1 < s.loadAttempts }

  /** The load fails with an attempt left, and the worker row it was leased on is gone: drained, cancelled or reaped meanwhile. */
  predicate Stale(s: State, step: Step) {
    && step.DoLoadFailed? && step.t in s.tasks && s.tasks[step.t].Loading?
    && RetryLeft(s, s.tasks[step.t].env) && s.tasks[step.t].wid !in s.rows
  }

  function LoadFailed(s: State, t: TaskId, error: string): State
    requires t in s.tasks && s.tasks[t].Loading?
  {
    var d := s.tasks[t];
    if RetryLeft(s, d.env) then
      s.(rows := BothDeleted(s.rows, Worker(d.w), d.wid, Global, d.env.globalMsgID),
         tasks := s.tasks[t := Resubmit(Retried(d.env), false)])
    else
      s.(tasks := s.tasks[t := Settle(d.env.requestID, Fault(error), RowsOf(d.w, d.wid, d.env.globalMsgID), true, false)])
  }

  /** A cancel landed during the load: finalised before the worker ever sees the job. */
  function Abort(s: State, t: TaskId): State
    requires t in s.tasks && s.tasks[t].Loading?
  {
    var d := s.tasks[t];
    s.(tasks := s.tasks[t := Settle(d.env.requestID, Fault(CANCELLED), RowsOf(d.w, d.wid, d.env.globalMsgID), true, false)])
  }

  function Start(s: State, t: TaskId): State
    requires t in s.tasks && s.tasks[t].Loading?
  {
    var d := s.tasks[t];
    s.(inflight := s.inflight[d.env.requestID := false],
       results := Flipped(s.results, d.env.requestID, Pending, Processing),
       tasks := s.tasks[t := Streaming(d.wid, d.w, d.env.globalMsgID, d.env.requestID)])
  }

  function AssignFailed(s: State, t: TaskId, error: string): State
    requires t in s.tasks && s.tasks[t].Streaming?
  {
    var d := s.tasks[t];
    s.(tasks := s.tasks[t := Settle(d.rid, Fault(error), RowsOf(d.w, d.wid, d.gid).(finish := true), true, false)])
  }

  /** What an ended stream settles with; None when the job is left for the disconnect drain. */
  function StreamVerdict(ending: StreamEnding, cancelled: bool, online: bool): Option<Verdict> {
    match ending
    case Terminal(body, error) =>
      if error == "" then Some(Answer(body)) else Some(Fault(if cancelled then CANCELLED else error))
    case Closed =>
      if cancelled then Some(Fault(CANCELLED))
      else if online then Some(Fault("worker stream closed before terminal frame"))
      else None
  }

  predicate CancelRecorded(s: State, rid: RequestId) { rid in s.inflight && s.inflight[rid] }

  function StreamEnd(s: State, t: TaskId, ending: StreamEnding, online: bool): State
    requires t in s.tasks && s.tasks[t].Streaming?
  {
    var d := s.tasks[t];
    var ended := s.(inflight := s.inflight - {d.rid});
    match StreamVerdict(ending, CancelRecorded(s, d.rid), online)
    case Some(v) => ended.(tasks := s.tasks[t := Settle(d.rid, v, RowsOf(d.w, d.wid, d.gid), true, false)])
    case None => ended.(tasks := s.tasks - {t}, stranded := s.stranded + {d.wid})
  }

  function Recorded(m: Results, rid: RequestId, v: Verdict, now: int): Results {
    match v
    case Answer(body) => Completed(m, rid, body, now)
    case Fault(error) => Failed(m, rid, error, now)
  }

  /** The write, and the history of which requests ever had a terminal result. */
  function Decide(s: State, rid: RequestId, v: Verdict, now: int): State {
    s.(results := Recorded(s.results, rid, v, now),
       decided := if rid in s.results then s.decided + {rid} else s.decided)
  }

  function RowsDropped(rows: Rows, after: After): Rows {
    var rest := if after.worker.Some? then Deleted(rows, Worker(after.worker.value.0), after.worker.value.1) else rows;
    if after.anchor.Some? then Deleted(rest, Global, after.anchor.value) else rest
  }

  /** The next step of a task that is past its worker. */
  function Advance(s: State, t: TaskId, id: MsgId, now: int): State
    requires t in s.tasks && !s.tasks[t].Loading? && !s.tasks[t].Streaming?
  {
    match s.tasks[t]
    case Settle(rid, v, after, publish, rearm) =>
      Decide(s, rid, v, now).(tasks := s.tasks[t := if publish then Announce(rid, after, rearm) else Drop(rid, after)])
    case Announce(rid, after, rearm) =>
      s.(published := s.published + {rid},
         buffered := if rearm then s.buffered + {rid} else s.buffered,
         tasks := s.tasks[t := Drop(rid, after)])
    case Drop(rid, after) =>
      s.(rows := RowsDropped(s.rows, after),
         inflight := if after.finish then s.inflight - {rid} else s.inflight,
         tasks := s.tasks - {t})
    case CancelSettle(rid) =>
      Decide(s, rid, Fault(CANCELLED), now).(buffered := s.buffered - {rid}, tasks := s.tasks - {t})
    case Resubmit(env, revert) =>
      s.(rows := Inserted(s.rows, id, Global, Decoded(env), env.priority, now),
         used := s.used + {id},
         resubmits := if env.requestID in s.resubmits then s.resubmits[env.requestID := s.resubmits[env.requestID] + 1]
                      else s.resubmits,
         results := if revert then Flipped(s.results, env.requestID, Processing, Pending) else s.results,
         tasks := s.tasks - {t})
  }

  /** What a worker-queue drain does with one row. */
  datatype DrainAction = Leave | Finish(error: string) | Discard | HandBack | Retry

  function DrainDecision(s: State, row: Row, includeLeased: bool, now: int): DrainAction {
    var open := LeaseOpen(row, now);
    if open && !includeLeased then Leave
    else if row.body.Garbage? then Leave
    else if CancelRecorded(s, row.body.env.requestID) then Finish(CANCELLED)
    else if TerminalIn(s.results, row.body.env.requestID) then Discard
    else if !open then HandBack
    else if (row.body.env.attempts as int) + 1 >= DISCONNECT_REQUEUE_BUDGET then
      Finish("worker disconnected while the job was running")
    else Retry
  }

  function Drain(s: State, wid: MsgId, w: WorkerId, includeLeased: bool, t: TaskId, now: int): State
    requires On(s.rows, Worker(w), wid)
  {
    var row := s.rows[wid];
    var rid := Request(row);
    var anchor := AnchorOf(row.body);
    match DrainDecision(s, row, includeLeased, now)
    case Leave => s
    case Finish(error) => s.(tasks := s.tasks[t := Settle(rid, Fault(error), RowsOf(w, wid, anchor), false, false)])
    case Discard => s.(tasks := s.tasks[t := Drop(rid, RowsOf(w, wid, anchor))])
    case HandBack => s.(rows := DeletedAndReleased(s.rows, Worker(w), wid, Global, anchor, now))
    case Retry =>
      s.(rows := BothDeleted(s.rows, Worker(w), wid, Global, anchor),
         tasks := s.tasks[t := Resubmit(Retried(row.body.env), true)])
  }

  function Evict(s: State, wid: MsgId, w: WorkerId, now: int): State
    requires wid in s.rows
  {
    var anchor := AnchorOf(s.rows[wid].body);
    if anchor == [] then s
    else s.(rows := DeletedAndReleased(s.rows, Worker(w), wid, Global, anchor, now))
  }

  /** The operator's cancel of a queued row: the rows go first, the result after. */
  function CancelQueued(s: State, id: MsgId, q: QueueName, t: TaskId): State
    requires id in s.rows
  {
    var row := s.rows[id];
    var anchor := AnchorOf(row.body);
    var rows := if q.Global? || anchor == [] then Deleted(s.rows, q, id) else BothDeleted(s.rows, q, id, Global, anchor);
    if Request(row) == [] then s.(rows := rows)
    else s.(rows := rows, tasks := s.tasks[t := CancelSettle(Request(row))])
  }

  function CancelRunning(s: State, rid: RequestId): State {
    s.(inflight := s.inflight[rid := true])
  }

  /** The age sweep takes a buffer that never saw a terminal frame; its consumers still hold it. */
  function ReapBuffer(s: State, rid: RequestId, t: TaskId): State {
    s.(buffered := s.buffered - {rid},
       tasks := s.tasks[t := Settle(rid, Fault("job reaped: no terminal frame"), After(None, None, false), true, false)])
  }

  function Reestimate(s: State, wid: MsgId, w: WorkerId, queuedBits: Bits64): State {
    if On(s.rows, Worker(w), wid) && s.rows[wid].body.Decoded? then
      s.(rows := Rewritten(s.rows, Worker(w), wid, Decoded(s.rows[wid].body.env.(queuedBits := queuedBits))))
    else s
  }

  /** The process dies: everything in memory is lost, leased worker rows are left without an owner. */
  function Crash(s: State): State {
    s.(buffered := {}, inflight := map[], tasks := map[],
       stranded := s.stranded + set id | id in s.rows && s.rows[id].queue.Worker? && s.rows[id].received > 0)
  }

  /** What the startup reap owes one abandoned row: its result, unless there is one, and the rows. */
  function ReapOf(s: State, id: MsgId, q: QueueName): Task
    requires id in s.rows
  {
    var row := s.rows[id];
    var rid := Sweeper.RequestOf(id, row.body);
    var anchor := AnchorOf(row.body);
    var after := match q
                 case Global => After(None, Some(id), false)
                 case Worker(w) => After(Some((w, id)), if anchor == [] then None else Some(anchor), false);
    if TerminalIn(s.results, rid) then Drop(rid, after) else Settle(rid, Fault(Sweeper.ABANDONED), after, false, false)
  }

  function Reap(s: State, id: MsgId, q: QueueName, t: TaskId): State
    requires id in s.rows
  {
    s.(tasks := s.tasks[t := ReapOf(s, id, q)])
  }

  // --- Runs ---

  predicate ValidRun(s: State, steps: seq<Step>)
    decreases |steps|
  {
    steps == [] || (Enabled(s, steps[0]) && ValidRun(Next(s, steps[0]), steps[1..]))
  }

  function Exec(s: State, steps: seq<Step>): State
    requires ValidRun(s, steps)
    decreases |steps|
  {
    if steps == [] then s else Exec(Next(s, steps[0]), steps[1..])
  }

  /** No load of the run fails after its row has gone. */
  predicate NoStaleRetry(s: State, steps: seq<Step>)
    requires ValidRun(s, steps)
    decreases |steps|
  {
    steps == [] || (!Stale(s, steps[0]) && NoStaleRetry(Next(s, steps[0]), steps[1..]))
  }

  lemma Prepend(s: State, step: Step, rest: seq<Step>)
    requires Enabled(s, step) && ValidRun(Next(s, step), rest)
    ensures ValidRun(s, [step] + rest) && Exec(s, [step] + rest) == Exec(Next(s, step), rest)
  {
    assert ([step] + rest)[0] == step && ([step] + rest)[1..] == rest;
  }

  lemma Head(s: State, xs: seq<Step>)
    requires xs != [] && ValidRun(s, xs)
    ensures Enabled(s, xs[0]) && ValidRun(Next(s, xs[0]), xs[1..]) && Exec(s, xs) == Exec(Next(s, xs[0]), xs[1..])
  {
  }

  lemma Prepended(s: State, xs: seq<Step>, ys: seq<Step>, n: State)
    requires xs != [] && Enabled(s, xs[0]) && n == Next(s, xs[0]) && ValidRun(n, xs[1..] + ys)
    ensures ValidRun(s, xs + ys) && Exec(s, xs + ys) == Exec(n, xs[1..] + ys)
  {
    assert [xs[0]] + (xs[1..] + ys) == xs + ys;
    Prepend(s, xs[0], xs[1..] + ys);
  }

  lemma {:induction false} RunsConcat(s: State, xs: seq<Step>, ys: seq<Step>)
    requires ValidRun(s, xs) && ValidRun(Exec(s, xs), ys)
    ensures ValidRun(s, xs + ys) && Exec(s, xs + ys) == Exec(Exec(s, xs), ys)
    decreases |xs|
  {
    if xs == [] {
      assert xs + ys == ys;
    } else {
      Head(s, xs);
      var n := Next(s, xs[0]);
      RunsConcat(n, xs[1..], ys);
      Prepended(s, xs, ys, n);
    }
  }
}
