/**
 What a job's stored result says, and who said it: on every run a done result holds the
 body of one of the job's own streams, and an error the text of the step that failed it.
 */
module JobAnswers {
  import opened EnvelopeCodec
  import opened JobProtocol
  import opened JobSafety
  import opened LeaseQueue
  import opened ResultStore
  import opened Wrappers

  /** The task is about to store this for the request. */
  predicate Says(task: Task, rid: RequestId, v: Verdict) {
    || (task.Settle? && task.rid == rid && task.verdict == v)
    || (task.CancelSettle? && task.rid == rid && v == Fault("cancelled by operator"))
  }

  predicate Holds(row: Row, rid: RequestId) { row.body.Decoded? && row.body.env.requestID == rid }

  predicate Flagged(s: State, rid: RequestId) { rid in s.inflight && s.inflight[rid] }

  /** The end of a stream: the worker's answer, its error unless the job was cancelled, or a silence nobody else accounts for. */
  predicate StreamSays(ending: StreamEnding, flagged: bool, online: bool, v: Verdict) {
    match ending
    case Terminal(body, error) =>
      if error == "" then v == Answer(body)
      else if flagged then v == Fault("cancelled by operator")
      else v == Fault(error)
    case Closed =>
      if flagged then v == Fault("cancelled by operator")
      else online && v == Fault("worker stream closed before terminal frame")
  }

  /** A drain that comes to a row: an unleased one may be answered too, but never blamed. */
  predicate DrainSays(s: State, row: Row, includeLeased: bool, now: int, v: Verdict) {
    var open := row.timeout > now && row.received > 0;
    && row.body.Decoded? && (open ==> includeLeased)
    && var rid := row.body.env.requestID;
       if Flagged(s, rid) then v == Fault("cancelled by operator")
       else && open && !(rid in s.results && (s.results[rid].status.Done? || s.results[rid].status.Error?))
            && row.body.env.attempts >= 2
            && v == Fault("worker disconnected while the job was running")
  }

  /** The step decides this verdict for the request. */
  predicate Decides(s: State, step: Step, rid: RequestId, v: Verdict)
    requires Enabled(s, step)
  {
    match step
    case DoFailUnbenchable(gid, error, _, _) =>
      v == Fault(error) && rid == if s.rows[gid].body.Decoded? then s.rows[gid].body.env.requestID else []
    case DoLease(wid, _, _, _, _) =>
      Holds(s.rows[wid], rid) && rid !in s.buffered && rid !in s.results && v == Fault("no replay buffer for request")
    case DoLoadFailed(t, error) =>
      s.tasks[t].env.requestID == rid && s.tasks[t].env.attempts + 1 >= s.loadAttempts && v == Fault(error)
    case DoAbort(t) => s.tasks[t].env.requestID == rid && v == Fault("cancelled by operator")
    case DoAssignFailed(t, error) => s.tasks[t].rid == rid && v == Fault(error)
    case DoStreamEnd(t, ending, online) => s.tasks[t].rid == rid && StreamSays(ending, Flagged(s, rid), online, v)
    case DoDrain(wid, _, includeLeased, _, now) => Holds(s.rows[wid], rid) && DrainSays(s, s.rows[wid], includeLeased, now, v)
    case DoCancelQueued(id, _, _, _) => rid != [] && Holds(s.rows[id], rid) && v == Fault("cancelled by operator")
    case DoReapBuffer(r, _) => r == rid && v == Fault("job reaped: no terminal frame")
    case DoReap(id, _, _, _) =>
      && rid == (if s.rows[id].body.Decoded? && s.rows[id].body.env.requestID != [] then s.rows[id].body.env.requestID else id)
      && !(rid in s.results && (s.results[rid].status.Done? || s.results[rid].status.Error?))
      && v == Fault("task abandoned: delivered 1 of 1 times, no result reported")
    case _ => false
  }

  /** Some task of the state, new since `s`, is about to store it. */
  ghost predicate NewlySays(s: State, n: State, rid: RequestId, v: Verdict) {
    exists t :: t in n.tasks && Says(n.tasks[t], rid, v) && (t in s.tasks ==> s.tasks[t] != n.tasks[t])
  }

  /** The task a step sets up. */
  function TaskId(step: Step): nat {
    match step
    case DoFailUnbenchable(_, _, t, _) => t
    case DoLease(_, _, t, _, _) => t
    case DoLoadFailed(t, _) => t
    case DoAbort(t) => t
    case DoStart(t) => t
    case DoBounce(t, _, _) => t
    case DoAssignFailed(t, _) => t
    case DoStreamEnd(t, _, _) => t
    case DoDrain(_, _, _, t, _) => t
    case DoCancelQueued(_, _, t, _) => t
    case DoReapBuffer(_, t) => t
    case DoReap(_, _, t, _) => t
    case DoAdvance(t, _, _) => t
    case _ => 0
  }

  /** What the step's own task says afterwards, if it did not say it before. */
  predicate TaskNewlySays(s: State, n: State, t: nat, rid: RequestId, v: Verdict) {
    t in n.tasks && Says(n.tasks[t], rid, v) && (t in s.tasks ==> s.tasks[t] != n.tasks[t])
  }

  predicate OtherTasksStay(s: State, n: State, t: nat) {
    forall u :: u in n.tasks && u != t ==> u in s.tasks && n.tasks[u] == s.tasks[u]
  }

  predicate IsLoadStep(step: Step) {
    step.DoLease? || step.DoBounce? || step.DoLoadFailed? || step.DoAbort? || step.DoStart?
  }

  lemma LoadStepDecides(s: State, step: Step, rid: RequestId, v: Verdict)
    requires Enabled(s, step) && IsLoadStep(step)
    ensures OtherTasksStay(s, Next(s, step), TaskId(step))
    ensures Decides(s, step, rid, v) <==> TaskNewlySays(s, Next(s, step), TaskId(step), rid, v)
  {
  }

  lemma StreamEndDecides(s: State, t: nat, ending: StreamEnding, online: bool, rid: RequestId, v: Verdict)
    requires Enabled(s, DoStreamEnd(t, ending, online))
    ensures OtherTasksStay(s, StreamEnd(s, t, ending, online), t)
    ensures s.tasks[t].rid == rid && StreamSays(ending, Flagged(s, rid), online, v)
            <==> TaskNewlySays(s, StreamEnd(s, t, ending, online), t, rid, v)
  {
  }

  lemma AdvanceDecides(s: State, t: nat, id: MsgId, now: int, rid: RequestId, v: Verdict)
    requires Enabled(s, DoAdvance(t, id, now))
    ensures OtherTasksStay(s, Advance(s, t, id, now), t)
    ensures !TaskNewlySays(s, Advance(s, t, id, now), t, rid, v)
  {
  }

  lemma StreamStepDecides(s: State, step: Step, rid: RequestId, v: Verdict)
    requires Enabled(s, step) && (step.DoAssignFailed? || step.DoStreamEnd? || step.DoAdvance?)
    ensures OtherTasksStay(s, Next(s, step), TaskId(step))
    ensures Decides(s, step, rid, v) <==> TaskNewlySays(s, Next(s, step), TaskId(step), rid, v)
  {
    if step.DoStreamEnd? {
      StreamEndDecides(s, step.t, step.ending, step.online, rid, v);
    } else if step.DoAdvance? {
      AdvanceDecides(s, step.t, step.id, step.now, rid, v);
    }
  }

  /** The drain's own decision, told from the row. */
  lemma DrainFinishes(s: State, row: Row, includeLeased: bool, now: int, v: Verdict)
    ensures DrainSays(s, row, includeLeased, now, v)
            <==> DrainDecision(s, row, includeLeased, now).Finish? && v == Fault(DrainDecision(s, row, includeLeased, now).error)
  {
  }

  lemma DrainDecides(s: State, wid: MsgId, w: WorkerId, includeLeased: bool, t: nat, now: int, rid: RequestId, v: Verdict)
    requires Enabled(s, DoDrain(wid, w, includeLeased, t, now))
    ensures OtherTasksStay(s, Drain(s, wid, w, includeLeased, t, now), t)
    ensures Holds(s.rows[wid], rid) && DrainSays(s, s.rows[wid], includeLeased, now, v)
            <==> TaskNewlySays(s, Drain(s, wid, w, includeLeased, t, now), t, rid, v)
  {
    var n, action := Drain(s, wid, w, includeLeased, t, now), DrainDecision(s, s.rows[wid], includeLeased, now);
    DrainFinishes(s, s.rows[wid], includeLeased, now, v);
    if action.Finish? {
      assert n.tasks[t] == Settle(Request(s.rows[wid]), Fault(action.error), RowsOf(w, wid, AnchorOf(s.rows[wid].body)), false, false);
    } else {
      assert t in n.tasks ==> !n.tasks[t].Settle? && !n.tasks[t].CancelSettle?;
    }
  }

  lemma PlacementStepDecides(s: State, step: Step, rid: RequestId, v: Verdict)
    requires Enabled(s, step) && IsPlacementStep(step)
    ensures OtherTasksStay(s, Next(s, step), TaskId(step))
    ensures Decides(s, step, rid, v) <==> TaskNewlySays(s, Next(s, step), TaskId(step), rid, v)
  {
    if step.DoDrain? { DrainDecides(s, step.wid, step.w, step.includeLeased, step.t, step.now, rid, v); }
  }

  lemma OtherStepDecides(s: State, step: Step, rid: RequestId, v: Verdict)
    requires Enabled(s, step) && !IsPlacementStep(step) && !IsDispatchStep(step)
    ensures OtherTasksStay(s, Next(s, step), TaskId(step))
    ensures Decides(s, step, rid, v) <==> TaskNewlySays(s, Next(s, step), TaskId(step), rid, v)
  {
  }

  lemma StepDecides(s: State, step: Step, rid: RequestId, v: Verdict)
    requires Enabled(s, step)
    ensures OtherTasksStay(s, Next(s, step), TaskId(step))
    ensures Decides(s, step, rid, v) <==> TaskNewlySays(s, Next(s, step), TaskId(step), rid, v)
  {
    if IsPlacementStep(step) {
      PlacementStepDecides(s, step, rid, v);
    } else if IsLoadStep(step) {
      LoadStepDecides(s, step, rid, v);
    } else if IsDispatchStep(step) {
      StreamStepDecides(s, step, rid, v);
    } else {
      OtherStepDecides(s, step, rid, v);
    }
  }

  lemma OnlyThatTask(s: State, n: State, t: nat, rid: RequestId, v: Verdict)
    requires OtherTasksStay(s, n, t)
    ensures NewlySays(s, n, rid, v) <==> TaskNewlySays(s, n, t, rid, v)
  {
  }

  /** A task comes to owe a verdict exactly when the step decides it. */
  lemma DecidesExactly(s: State, step: Step, rid: RequestId, v: Verdict)
    requires Enabled(s, step)
    ensures Decides(s, step, rid, v) <==> NewlySays(s, Next(s, step), rid, v)
  {
    StepDecides(s, step, rid, v);
    OnlyThatTask(s, Next(s, step), TaskId(step), rid, v);
  }

  // --- From the verdict to the stored result ---

  predicate Shows(r: JobResult, v: Verdict) {
    match v
    case Answer(body) => r.status.Done? && r.body == body
    case Fault(error) => r.status.Error? && r.error == error
  }

  predicate Stored(s: State, rid: RequestId, v: Verdict) { rid in s.results && Shows(s.results[rid], v) }

  ghost predicate Owed(s: State, rid: RequestId, v: Verdict) { exists t :: t in s.tasks && Says(s.tasks[t], rid, v) }

  /** A verdict owed is stored, whole, by its task's next step, on any result row that is there, and no other result changes. */
  lemma VerdictIsStored(s: State, t: nat, id: MsgId, now: int, rid: RequestId, v: Verdict)
    requires Enabled(s, DoAdvance(t, id, now)) && Says(s.tasks[t], rid, v)
    ensures var n := Next(s, DoAdvance(t, id, now));
            && (rid in s.results ==> Stored(n, rid, v) && n.results[rid].completedAt == Some(now) && rid in n.decided)
            && n.results.Keys == s.results.Keys
            && (forall other :: other in s.results && other != rid ==> n.results[other] == s.results[other])
  {
  }

  lemma StoredIsOwedOrOld(s: State, t: nat, id: MsgId, now: int, rid: RequestId, v: Verdict)
    requires Enabled(s, DoAdvance(t, id, now)) && Stored(Next(s, DoAdvance(t, id, now)), rid, v)
    ensures Stored(s, rid, v) || Owed(s, rid, v)
  {
    var task := s.tasks[t];
    if task.Settle? {
      VerdictIsStored(s, t, id, now, task.rid, task.verdict);
      assert Says(task, task.rid, task.verdict);
    } else if task.CancelSettle? {
      VerdictIsStored(s, t, id, now, task.rid, Fault("cancelled by operator"));
      assert Says(task, task.rid, Fault("cancelled by operator"));
    }
  }

  /** Only a verdict's own task touches what a result shows. */
  lemma OtherStepsStoreNothing(s: State, step: Step, rid: RequestId, v: Verdict)
    requires Enabled(s, step) && !step.DoAdvance? && Stored(Next(s, step), rid, v)
    ensures Stored(s, rid, v)
  {
    if IsDispatchStep(step) { DispatchStoresNothing(s, step, rid, v); }
  }

  lemma DispatchStoresNothing(s: State, step: Step, rid: RequestId, v: Verdict)
    requires Enabled(s, step) && !step.DoAdvance? && IsDispatchStep(step) && Stored(Next(s, step), rid, v)
    ensures Stored(s, rid, v)
  {
  }

  lemma StepExplains(s: State, step: Step, rid: RequestId, v: Verdict)
    requires Enabled(s, step) && (Stored(Next(s, step), rid, v) || Owed(Next(s, step), rid, v))
    ensures Stored(s, rid, v) || Owed(s, rid, v) || Decides(s, step, rid, v)
  {
    var n := Next(s, step);
    if Stored(n, rid, v) {
      if step.DoAdvance? {
        StoredIsOwedOrOld(s, step.t, step.id, step.now, rid, v);
      } else {
        OtherStepsStoreNothing(s, step, rid, v);
      }
    } else {
      DecidesExactly(s, step, rid, v);
    }
  }

  /** Some step of the run decided it. */
  ghost predicate Decided(s: State, steps: seq<Step>, rid: RequestId, v: Verdict)
    requires ValidRun(s, steps)
    decreases |steps|
  {
    steps != [] && (Decides(s, steps[0], rid, v) || Decided(Next(s, steps[0]), steps[1..], rid, v))
  }

  lemma {:induction false} RunExplains(s: State, steps: seq<Step>, rid: RequestId, v: Verdict)
    requires ValidRun(s, steps) && (Stored(Exec(s, steps), rid, v) || Owed(Exec(s, steps), rid, v))
    ensures Stored(s, rid, v) || Owed(s, rid, v) || Decided(s, steps, rid, v)
    decreases |steps|
  {
    if steps != [] {
      var n := Next(s, steps[0]);
      RunExplains(n, steps[1..], rid, v);
      if Stored(n, rid, v) || Owed(n, rid, v) {
        StepExplains(s, steps[0], rid, v);
      }
    }
  }

  /** On every run a done result is the body of a terminal frame some step took for that job, and an error the text some step failed it with. */
  lemma ResultsAreExplained(loadAttempts: nat, steps: seq<Step>, rid: RequestId)
    requires ValidRun(Init(loadAttempts), steps) && rid in Exec(Init(loadAttempts), steps).results
    ensures var r := Exec(Init(loadAttempts), steps).results[rid];
            && (r.status.Done? ==> Decided(Init(loadAttempts), steps, rid, Answer(r.body)))
            && (r.status.Error? ==> Decided(Init(loadAttempts), steps, rid, Fault(r.error)))
  {
    var r := Exec(Init(loadAttempts), steps).results[rid];
    if r.status.Done? { RunExplains(Init(loadAttempts), steps, rid, Answer(r.body)); }
    if r.status.Error? { RunExplains(Init(loadAttempts), steps, rid, Fault(r.error)); }
  }

  // --- Which verdicts are announced ---

  /** The job's own end is announced to its consumers; a drained, a reaped, a buffer-less and a cancelled queued one is not. */
  predicate Announces(step: Step) {
    || step.DoFailUnbenchable? || step.DoLoadFailed? || step.DoAbort? || step.DoAssignFailed?
    || step.DoStreamEnd? || step.DoReapBuffer?
  }

  /** The verdict a step decides is owed with its frame exactly when the step announces it; a job that never placed gets its buffer first. */
  lemma AnnouncedExactly(s: State, step: Step, rid: RequestId, v: Verdict)
    requires Enabled(s, step) && Decides(s, step, rid, v)
    ensures TaskId(step) in Next(s, step).tasks
    ensures var task := Next(s, step).tasks[TaskId(step)];
            && (Announces(step) <==> task.Settle? && task.publish)
            && (step.DoFailUnbenchable? <==> task.Settle? && task.rearm)
            && (step.DoAssignFailed? <==> task.Settle? && task.after.finish)
  {
    StepDecides(s, step, rid, v);
    if IsDispatchStep(step) { DispatchAnnounces(s, step, rid, v); } else { OthersAnnounce(s, step, rid, v); }
  }

  lemma DispatchAnnounces(s: State, step: Step, rid: RequestId, v: Verdict)
    requires Enabled(s, step) && Decides(s, step, rid, v) && IsDispatchStep(step)
    requires TaskNewlySays(s, Next(s, step), TaskId(step), rid, v)
    ensures var task := Next(s, step).tasks[TaskId(step)];
            && (Announces(step) <==> task.Settle? && task.publish)
            && !(task.Settle? && task.rearm)
            && (step.DoAssignFailed? <==> task.Settle? && task.after.finish)
  {
  }

  lemma OthersAnnounce(s: State, step: Step, rid: RequestId, v: Verdict)
    requires Enabled(s, step) && Decides(s, step, rid, v) && !IsDispatchStep(step)
    requires TaskNewlySays(s, Next(s, step), TaskId(step), rid, v)
    ensures var task := Next(s, step).tasks[TaskId(step)];
            && (Announces(step) <==> task.Settle? && task.publish)
            && (step.DoFailUnbenchable? <==> task.Settle? && task.rearm)
            && !(task.Settle? && task.after.finish)
  {
    if step.DoDrain? { DrainFinishes(s, s.rows[step.wid], step.includeLeased, step.now, v); }
  }

  /** The frame goes out after the result, and the rows after the frame, in three steps of the task that owes them. */
  lemma FrameFollowsResult(s: State, t: nat, id: MsgId, now: int)
    requires Enabled(s, DoAdvance(t, id, now))
    ensures var n := Next(s, DoAdvance(t, id, now));
            match s.tasks[t] {
              case Settle(rid, _, after, publish, rearm) =>
                && n.tasks == s.tasks[t := if publish then Announce(rid, after, rearm) else Drop(rid, after)]
                && n.published == s.published && n.rows == s.rows && n.inflight == s.inflight
              case Announce(rid, after, rearm) =>
                && n.tasks == s.tasks[t := Drop(rid, after)] && n.published == s.published + {rid}
                && n.buffered == (if rearm then s.buffered + {rid} else s.buffered) && n.rows == s.rows && n.results == s.results
              case Drop(rid, after) =>
                && n.tasks == s.tasks - {t} && n.results == s.results && n.published == s.published
                && (forall x :: x in n.rows <==> x in s.rows && !(s.rows[x].queue.Worker? && after.worker == Some((s.rows[x].queue.id, x)))
                                                 && !(after.anchor == Some(x) && s.rows[x].queue == Global))
                && (forall x :: x in n.rows ==> n.rows[x] == s.rows[x])
                && n.inflight == (if after.finish then s.inflight - {rid} else s.inflight)
              case CancelSettle(rid) =>
                n.tasks == s.tasks - {t} && n.buffered == s.buffered - {rid} && n.rows == s.rows && n.published == s.published
              case Resubmit(env, _) =>
                n.tasks == s.tasks - {t} && n.published == s.published && n.rows - {id} == s.rows - {id}
            }
  {
  }
}
