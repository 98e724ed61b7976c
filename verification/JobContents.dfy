/**
 What a job's rows, loads and retries carry: the envelope its submitter gave, field by
 field, on every run, whatever was placed, stolen, drained, evicted, retried, doubled,
 crashed or reaped in between.
 */
module JobContents {
  import opened EnvelopeCodec
  import opened JobProtocol
  import opened JobSafety
  import opened LeaseQueue
  import opened ResultStore

  /** The same job: only the attempt count, the anchor and the queued seconds may differ. */
  predicate SameJob(given: Envelope, env: Envelope) {
    && env.priority == given.priority
    && env.costBits == given.costBits
    && env.headroomPct == given.headroomPct
    && env.runtimeName == given.runtimeName
    && env.modelID == given.modelID
    && env.source == given.source
    && env.requestID == given.requestID
    && env.loadArtifacts == given.loadArtifacts
    && env.payload == given.payload
  }

  type Given = map<RequestId, Envelope>

  /** The envelopes the run's submitters gave, by request. */
  function GivenBy(given: Given, steps: seq<Step>): Given
    decreases |steps|
  {
    if steps == [] then given else GivenBy(GivenIn(given, steps[0]), steps[1..])
  }

  function GivenIn(given: Given, step: Step): Given {
    if step.DoSubmit? then given[step.env.requestID := step.env] else given
  }

  predicate Carries(given: Given, env: Envelope) {
    env.requestID in given && SameJob(given[env.requestID], env)
  }

  /** The row holds a submitted job, queued under the job's own priority. */
  predicate RowCarries(given: Given, row: Row) {
    row.body.Decoded? && Carries(given, row.body.env) && row.priority == row.body.env.priority
  }

  ghost predicate RowsCarry(given: Given, rows: Rows) {
    forall id :: id in rows ==> RowCarries(given, rows[id])
  }

  predicate TaskCarries(given: Given, task: Task) {
    task.Loading? || task.Resubmit? ==> Carries(given, task.env)
  }

  ghost predicate TasksCarry(given: Given, tasks: map<TaskId, Task>) {
    forall t :: t in tasks ==> TaskCarries(given, tasks[t])
  }

  ghost predicate Contents(given: Given, s: State) {
    && given.Keys == s.resubmits.Keys
    && RowsCarry(given, s.rows)
    && TasksCarry(given, s.tasks)
  }

  // --- Each step ---

  lemma NewRowCarries(given: Given, rows: Rows, id: MsgId, q: QueueName, env: Envelope, now: int)
    requires RowsCarry(given, rows) && Carries(given, env)
    ensures RowsCarry(given, Inserted(rows, id, q, Decoded(env), env.priority, now))
  {
  }

  lemma DroppedRowsCarry(given: Given, rows: Rows, q: QueueName, id: MsgId, other: QueueName, otherId: MsgId, now: int)
    requires RowsCarry(given, rows)
    ensures RowsCarry(given, Deleted(rows, q, id))
    ensures RowsCarry(given, BothDeleted(rows, q, id, other, otherId))
    ensures RowsCarry(given, DeletedAndReleased(rows, q, id, other, otherId, now))
  {
  }

  lemma TouchedRowsCarry(given: Given, rows: Rows, q: QueueName, id: MsgId, now: int, duration: int)
    requires RowsCarry(given, rows)
    ensures RowsCarry(given, Leased(rows, q, id, now, duration))
    ensures RowsCarry(given, Rearmed(rows, q, id, now + duration))
    ensures RowsCarry(given, Extended(rows, q, id, now))
  {
  }

  lemma SubmitCarries(given: Given, s: State, env: Envelope, id: MsgId, now: int)
    requires Contents(given, s) && Enabled(s, DoSubmit(env, id, now))
    ensures Contents(given[env.requestID := env], Submit(s, env, id, now))
  {
    var g := given[env.requestID := env];
    assert forall r :: r in given ==> r in g && g[r] == given[r];
    assert RowsCarry(g, s.rows) && TasksCarry(g, s.tasks);
    NewRowCarries(g, s.rows, id, Global, env, now);
  }

  lemma PlaceCarries(given: Given, s: State, gid: MsgId, w: WorkerId, queuedBits: Bits64, id: MsgId, duration: int, now: int)
    requires Contents(given, s)
    ensures Contents(given, Place(s, gid, w, queuedBits, id, duration, now))
  {
    if gid in s.rows {
      assert RowCarries(given, s.rows[gid]);
      TouchedRowsCarry(given, s.rows, Global, gid, now, duration);
      var env := s.rows[gid].body.env.(globalMsgID := gid, queuedBits := queuedBits);
      NewRowCarries(given, Leased(s.rows, Global, gid, now, duration), id, Worker(w), env, now);
    }
  }

  lemma StealCarries(given: Given, s: State, wid: MsgId, src: WorkerId, dst: WorkerId, id: MsgId, now: int)
    requires Contents(given, s) && wid in s.rows
    ensures Contents(given, Steal(s, wid, src, dst, id, now))
  {
    assert RowCarries(given, s.rows[wid]);
  }

  lemma LeaseCarries(given: Given, s: State, wid: MsgId, w: WorkerId, t: TaskId, duration: int, now: int)
    requires Contents(given, s) && Leasable(s.rows, Worker(w), wid, now)
    ensures Contents(given, Lease(s, wid, w, t, duration, now))
  {
    assert RowCarries(given, s.rows[wid]);
    TouchedRowsCarry(given, s.rows, Worker(w), wid, now, duration);
  }

  lemma BounceCarries(given: Given, s: State, t: TaskId, delay: int, now: int)
    requires Contents(given, s) && t in s.tasks && s.tasks[t].Loading?
    ensures Contents(given, Bounce(s, t, delay, now))
  {
    TouchedRowsCarry(given, s.rows, Worker(s.tasks[t].w), s.tasks[t].wid, now, delay);
  }

  lemma LoadFailedCarries(given: Given, s: State, t: TaskId, error: string)
    requires Contents(given, s) && t in s.tasks && s.tasks[t].Loading?
    ensures Contents(given, LoadFailed(s, t, error))
  {
    var d := s.tasks[t];
    assert TaskCarries(given, d);
    DroppedRowsCarry(given, s.rows, Worker(d.w), d.wid, Global, d.env.globalMsgID, 0);
  }

  lemma AdvanceCarries(given: Given, s: State, t: TaskId, id: MsgId, now: int)
    requires Contents(given, s) && Enabled(s, DoAdvance(t, id, now))
    ensures Contents(given, Advance(s, t, id, now))
  {
    assert TaskCarries(given, s.tasks[t]);
    match s.tasks[t]
    case Drop(_, after) =>
      if after.worker.Some? { DroppedRowsCarry(given, s.rows, Worker(after.worker.value.0), after.worker.value.1, Global, [], 0); }
    case Resubmit(env, _) => NewRowCarries(given, s.rows, id, Global, env, now);
    case _ =>
  }

  /** What is left to check of a step: its rows, and the one task it sets. */
  lemma OneTaskCarries(given: Given, s: State, n: State, t: TaskId)
    requires Contents(given, s) && RowsCarry(given, n.rows) && n.resubmits.Keys == s.resubmits.Keys
    requires forall u :: u in n.tasks && u != t ==> u in s.tasks && n.tasks[u] == s.tasks[u]
    requires t in n.tasks ==> TaskCarries(given, n.tasks[t])
    ensures Contents(given, n)
  {
  }

  lemma DrainCarries(given: Given, s: State, wid: MsgId, w: WorkerId, includeLeased: bool, t: TaskId, now: int)
    requires Contents(given, s) && On(s.rows, Worker(w), wid) && t !in s.tasks
    ensures Contents(given, Drain(s, wid, w, includeLeased, t, now))
  {
    var n, row := Drain(s, wid, w, includeLeased, t, now), s.rows[wid];
    var action := DrainDecision(s, row, includeLeased, now);
    assert RowCarries(given, row);
    DroppedRowsCarry(given, s.rows, Worker(w), wid, Global, AnchorOf(row.body), now);
    if action.Retry? {
      RetryCarries(given, row.body.env);
      assert n.tasks[t] == Resubmit(Retried(row.body.env), true);
      OneTaskCarries(given, s, n, t);
    } else if action.Finish? || action.Discard? {
      assert n.rows == s.rows;
      OneTaskCarries(given, s, n, t);
    }
  }

  lemma RetryCarries(given: Given, env: Envelope)
    requires Carries(given, env)
    ensures Carries(given, Retried(env))
  {
  }

  lemma CancelQueuedCarries(given: Given, s: State, id: MsgId, q: QueueName, t: TaskId)
    requires Contents(given, s) && id in s.rows
    ensures Contents(given, CancelQueued(s, id, q, t))
  {
    DroppedRowsCarry(given, s.rows, q, id, Global, AnchorOf(s.rows[id].body), 0);
  }

  lemma ReestimateCarries(given: Given, s: State, wid: MsgId, w: WorkerId, queuedBits: Bits64)
    requires Contents(given, s)
    ensures Contents(given, Reestimate(s, wid, w, queuedBits))
  {
    if wid in s.rows { assert RowCarries(given, s.rows[wid]); }
  }

  lemma QuietStepCarries(given: Given, s: State, step: Step)
    requires Contents(given, s) && Enabled(s, step)
    requires step.DoAbort? || step.DoStart? || step.DoAssignFailed? || step.DoStreamEnd? || step.DoFailUnbenchable?
    ensures Contents(given, Next(s, step))
  {
    if !step.DoFailUnbenchable? { OneTaskCarries(given, s, Next(s, step), step.t); }
  }

  lemma OtherStepCarries(given: Given, s: State, step: Step)
    requires Contents(given, s) && Enabled(s, step)
    requires step.DoCancelRunning? || step.DoReapBuffer? || step.DoSweepBuffer? || step.DoCleanup? || step.DoCrash? || step.DoReap?
    ensures Contents(given, Next(s, step))
  {
    var n := Next(s, step);
    assert n.rows == s.rows && n.resubmits == s.resubmits;
    assert !step.DoReapBuffer? && !step.DoReap? ==> n.tasks == s.tasks || n.tasks == map[];
  }

  lemma DispatchStepCarries(given: Given, s: State, step: Step)
    requires Contents(given, s) && Enabled(s, step) && IsDispatchStep(step)
    ensures Contents(given, Next(s, step))
  {
    match step
    case DoLease(wid, w, t, duration, now) => LeaseCarries(given, s, wid, w, t, duration, now);
    case DoBounce(t, delay, now) => BounceCarries(given, s, t, delay, now);
    case DoLoadFailed(t, error) => LoadFailedCarries(given, s, t, error);
    case DoAdvance(t, id, now) => AdvanceCarries(given, s, t, id, now);
    case _ => QuietStepCarries(given, s, step);
  }

  lemma PlacementStepCarries(given: Given, s: State, step: Step)
    requires Contents(given, s) && Enabled(s, step) && IsPlacementStep(step)
    ensures Contents(GivenIn(given, step), Next(s, step))
  {
    if step.DoSubmit? {
      SubmitCarries(given, s, step.env, step.id, step.now);
    } else if step.DoPlace? {
      PlaceCarries(given, s, step.gid, step.w, step.queuedBits, step.id, step.duration, step.now);
    } else if step.DoSteal? {
      StealCarries(given, s, step.wid, step.src, step.dst, step.id, step.now);
    } else if step.DoDrain? {
      DrainCarries(given, s, step.wid, step.w, step.includeLeased, step.t, step.now);
    } else if step.DoEvict? {
      DroppedRowsCarry(given, s.rows, Worker(step.w), step.wid, Global, AnchorOf(s.rows[step.wid].body), step.now);
    } else if step.DoCancelQueued? {
      CancelQueuedCarries(given, s, step.id, step.q, step.t);
    } else {
      QuietStepCarries(given, s, step);
    }
  }

  lemma RowTouchCarries(given: Given, s: State, step: Step)
    requires Contents(given, s) && Enabled(s, step) && (step.DoExtend? || step.DoReestimate?)
    ensures Contents(given, Next(s, step))
  {
    match step
    case DoExtend(wid, w, until) => TouchedRowsCarry(given, s.rows, Worker(w), wid, until, 0);
    case DoReestimate(wid, w, queuedBits) => ReestimateCarries(given, s, wid, w, queuedBits);
  }

  lemma StepCarries(given: Given, s: State, step: Step)
    requires Contents(given, s) && Enabled(s, step)
    ensures Contents(GivenIn(given, step), Next(s, step))
  {
    if IsPlacementStep(step) {
      PlacementStepCarries(given, s, step);
    } else if IsDispatchStep(step) {
      DispatchStepCarries(given, s, step);
    } else if step.DoExtend? || step.DoReestimate? {
      RowTouchCarries(given, s, step);
    } else {
      OtherStepCarries(given, s, step);
    }
  }

  lemma {:induction false} RunCarries(given: Given, s: State, steps: seq<Step>)
    requires Contents(given, s) && ValidRun(s, steps)
    ensures Contents(GivenBy(given, steps), Exec(s, steps))
    decreases |steps|
  {
    if steps != [] {
      StepCarries(given, s, steps[0]);
      RunCarries(GivenIn(given, steps[0]), Next(s, steps[0]), steps[1..]);
    }
  }

  /**
   On every run, doubled and stale retries and crashes included, every row on any queue and
   every load and retry under way is the job its submitter gave, in each of these fields.
   */
  lemma JobsKeepTheirContents(loadAttempts: nat, steps: seq<Step>)
    requires ValidRun(Init(loadAttempts), steps)
    ensures var s, given := Exec(Init(loadAttempts), steps), GivenBy(map[], steps);
            && (forall id :: id in s.rows ==>
                  && s.rows[id].body.Decoded?
                  && s.rows[id].body.env.requestID in given
                  && SameJob(given[s.rows[id].body.env.requestID], s.rows[id].body.env)
                  && s.rows[id].priority == s.rows[id].body.env.priority)
            && (forall t :: t in s.tasks && (s.tasks[t].Loading? || s.tasks[t].Resubmit?) ==>
                  && s.tasks[t].env.requestID in given
                  && SameJob(given[s.tasks[t].env.requestID], s.tasks[t].env))
  {
    RunCarries(map[], Init(loadAttempts), steps);
    var s, given := Exec(Init(loadAttempts), steps), GivenBy(map[], steps);
    forall id | id in s.rows
      ensures RowCarries(given, s.rows[id])
    {
    }
    forall t | t in s.tasks
      ensures TaskCarries(given, s.tasks[t])
    {
    }
  }

  // --- When a row can be taken next ---

  /** The row of `id` can be leased from `at` on, on that queue, and not before. */
  ghost predicate OpenFrom(rows: Rows, q: QueueName, id: MsgId, at: int) {
    forall t :: Leasable(rows, q, id, t) <==> t >= at
  }

  /** The row of `id` shows in listings from `at` on, but cannot be leased. */
  ghost predicate HeldUntil(rows: Rows, q: QueueName, id: MsgId, at: int) {
    forall t :: (Visible(rows, q, id, t) <==> t >= at) && !Leasable(rows, q, id, t)
  }

  /** A submitted job can be placed at once. */
  lemma SubmittedIsOpen(s: State, env: Envelope, id: MsgId, now: int)
    requires Enabled(s, DoSubmit(env, id, now))
    ensures OpenFrom(Submit(s, env, id, now).rows, Global, id, now)
  {
  }

  /** A placed job can be dispatched at once, while its anchor is held for the whole lease. */
  lemma PlacedIsOpen(s: State, gid: MsgId, w: WorkerId, queuedBits: Bits64, id: MsgId, duration: int, now: int)
    requires gid in s.rows && s.rows[gid].body.Decoded? && Leasable(s.rows, Global, gid, now) && id !in s.rows
    ensures var n := Place(s, gid, w, queuedBits, id, duration, now);
            OpenFrom(n.rows, Worker(w), id, now) && HeldUntil(n.rows, Global, gid, now + duration)
  {
  }

  /** A stolen one can be dispatched by its new worker at once, and no longer by the old. */
  lemma StolenIsOpen(s: State, wid: MsgId, src: WorkerId, dst: WorkerId, id: MsgId, now: int)
    requires wid in s.rows && s.rows[wid].body.Decoded? && Leasable(s.rows, Worker(src), wid, now) && id !in s.rows
    ensures var n := Steal(s, wid, src, dst, id, now);
            OpenFrom(n.rows, Worker(dst), id, now) && wid !in n.rows && n.rows[id].body == s.rows[wid].body
  {
  }

  /** A leased row is held for the lease, a bounced one is open again after the delay, an extended one is held until then. */
  lemma LeasedIsHeld(s: State, wid: MsgId, w: WorkerId, t: TaskId, duration: int, delay: int, now: int)
    requires Leasable(s.rows, Worker(w), wid, now) && s.rows[wid].body.Decoded?
    ensures var n := Lease(s, wid, w, t, duration, now);
            && HeldUntil(n.rows, Worker(w), wid, now + duration)
            && HeldUntil(Extended(n.rows, Worker(w), wid, now + delay), Worker(w), wid, now + delay)
  {
  }

  lemma BouncedIsOpen(s: State, t: TaskId, delay: int, now: int)
    requires Enabled(s, DoBounce(t, delay, now)) && On(s.rows, Worker(s.tasks[t].w), s.tasks[t].wid)
    ensures var n := Bounce(s, t, delay, now);
            && OpenFrom(n.rows, Worker(s.tasks[t].w), s.tasks[t].wid, now + delay) && t !in n.tasks
            && n.rows[s.tasks[t].wid].body == s.rows[s.tasks[t].wid].body
  {
  }

  /** A retry can be placed at once. */
  lemma RetriedIsOpen(s: State, t: TaskId, id: MsgId, now: int)
    requires Enabled(s, DoAdvance(t, id, now)) && s.tasks[t].Resubmit?
    ensures OpenFrom(Advance(s, t, id, now).rows, Global, id, now)
  {
  }

  /** A row handed back or evicted is gone, and its anchor can be placed from that moment on. */
  lemma HandedBackIsOpen(s: State, wid: MsgId, w: WorkerId, now: int)
    requires On(s.rows, Worker(w), wid) && On(s.rows, Global, AnchorOf(s.rows[wid].body)) && AnchorOf(s.rows[wid].body) != []
    ensures var n := Evict(s, wid, w, now);
            && wid !in n.rows && HandsBack(s.rows, n.rows, Worker(w), wid, Global, AnchorOf(s.rows[wid].body), now)
            && forall t :: t >= now ==> Leasable(n.rows, Global, AnchorOf(s.rows[wid].body), t)
  {
    ReleasedIsHandedBack(s.rows, Worker(w), wid, Global, AnchorOf(s.rows[wid].body), now);
  }
}
