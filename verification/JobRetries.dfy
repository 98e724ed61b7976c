/** Retry termination: load failures and disconnects share one bounded counter. */
module JobRetries {
  import opened EnvelopeCodec
  import opened JobInvariants
  import opened JobProtocol
  import opened JobSafety
  import opened LeaseQueue
  import opened ResultStore

  function Max(a: int, b: int): int { if a >= b then a else b }

  /** Dispatches a job gets: the larger of the two budgets that share its counter. */
  function DispatchCap(loadAttempts: nat): int { Max(loadAttempts, DISCONNECT_REQUEUE_BUDGET) }

  /** The on-disk counter of every row is the number of resubmissions so far, and stays under the cap. */
  ghost predicate CountersOk(s: State) {
    && (forall id :: id in s.rows ==>
                       Request(s.rows[id]) in s.resubmits && Attempts(s.rows[id]) == s.resubmits[Request(s.rows[id])])
    && (forall rid :: rid in s.resubmits ==> s.resubmits[rid] < DispatchCap(s.loadAttempts))
    && (forall t :: t in s.tasks && s.tasks[t].Resubmit? ==> RetryCounted(s, s.tasks[t].env))
  }

  predicate RetryCounted(s: State, env: Envelope) {
    && env.requestID in s.resubmits
    && env.attempts == s.resubmits[env.requestID] + 1
    && (env.attempts as int) < DispatchCap(s.loadAttempts)
  }

  predicate IsResubmission(s: State, step: Step) {
    step.DoAdvance? && step.t in s.tasks && s.tasks[step.t].Resubmit?
  }

  /** Each row of `n` carries the request and the counter of a row of `s`: its own, or the one `from` says it was made of. */
  ghost predicate CarriesOver(s: State, n: State, id: MsgId, from: MsgId) {
    && n.resubmits == s.resubmits && n.loadAttempts == s.loadAttempts
    && forall x :: x in n.rows ==>
                     var o := if x == id then from else x;
                     o in s.rows && Request(n.rows[x]) == Request(s.rows[o]) && Attempts(n.rows[x]) == Attempts(s.rows[o])
  }

  ghost predicate RetriesCounted(s: State, n: State) {
    forall t :: t in n.tasks && n.tasks[t].Resubmit? ==>
                  (t in s.tasks && s.tasks[t] == n.tasks[t]) || RetryCounted(s, n.tasks[t].env)
  }

  lemma CarriedOver(s: State, n: State, id: MsgId, from: MsgId)
    requires CountersOk(s) && CarriesOver(s, n, id, from) && RetriesCounted(s, n)
    ensures CountersOk(n)
  {
  }

  /** A retry within either budget is the next resubmission, still under the cap; the byte does not wrap. */
  lemma RetryWithinCap(s: State, env: Envelope, id: MsgId)
    requires CountersOk(s) && s.loadAttempts <= 256
    requires id in s.rows && Request(s.rows[id]) == env.requestID && Attempts(s.rows[id]) == env.attempts
    requires RetryLeft(s, env) || (env.attempts as int) + 1 < DISCONNECT_REQUEUE_BUDGET
    ensures RetryCounted(s, Retried(env))
  {
  }

  lemma PlaceCarries(s: State, gid: MsgId, w: WorkerId, queuedBits: Bits64, id: MsgId, duration: int, now: int)
    requires s.rows.Keys <= s.used && Enabled(s, DoPlace(gid, w, queuedBits, id, duration, now))
    ensures CarriesOver(s, Place(s, gid, w, queuedBits, id, duration, now), id, gid)
  {
  }

  lemma StealCarries(s: State, wid: MsgId, src: WorkerId, dst: WorkerId, id: MsgId, now: int)
    requires s.rows.Keys <= s.used && Enabled(s, DoSteal(wid, src, dst, id, now))
    ensures CarriesOver(s, Steal(s, wid, src, dst, id, now), id, wid)
  {
  }

  lemma IdsAreUsed(s: State)
    requires Inv(s)
    ensures s.rows.Keys <= s.used && [] !in s.rows
  {
    forall x | x in s.rows
      ensures x in s.used
    {
      assert RowOk(s.rows, s.used, x);
    }
  }

  lemma LoadFailedCarries(s: State, t: TaskId, error: string)
    requires [] !in s.rows && CountersOk(s) && s.loadAttempts <= 256
    requires Enabled(s, DoLoadFailed(t, error)) && TaskOk(s, s.tasks[t]) && !Stale(s, DoLoadFailed(t, error))
    ensures var n := LoadFailed(s, t, error); CarriesOver(s, n, [], []) && RetriesCounted(s, n)
  {
    var d := s.tasks[t];
    if RetryLeft(s, d.env) {
      RetryWithinCap(s, d.env, d.wid);
      LoadRetryCarries(s, t, d.w, d.wid, d.env);
    }
  }

  lemma LoadRetryCarries(s: State, t: TaskId, w: WorkerId, wid: MsgId, env: Envelope)
    requires [] !in s.rows && RetryCounted(s, Retried(env))
    ensures var n := s.(rows := BothDeleted(s.rows, Worker(w), wid, Global, env.globalMsgID), tasks := s.tasks[t := Resubmit(Retried(env), false)]);
            CarriesOver(s, n, [], []) && RetriesCounted(s, n)
  {
    BothDeletedDrops(s.rows, Worker(w), wid, Global, env.globalMsgID);
  }

  lemma RetryCarries(s: State, wid: MsgId, w: WorkerId, t: TaskId, env: Envelope)
    requires [] !in s.rows && CountersOk(s) && s.loadAttempts <= 256
    requires On(s.rows, Worker(w), wid) && s.rows[wid].body == Decoded(env)
    requires (env.attempts as int) + 1 < DISCONNECT_REQUEUE_BUDGET
    ensures var n := s.(rows := BothDeleted(s.rows, Worker(w), wid, Global, env.globalMsgID),
                        tasks := s.tasks[t := Resubmit(Retried(env), true)]);
            CountersOk(n) && n.resubmits == s.resubmits && n.loadAttempts == s.loadAttempts
  {
    var n := s.(rows := BothDeleted(s.rows, Worker(w), wid, Global, env.globalMsgID),
                tasks := s.tasks[t := Resubmit(Retried(env), true)]);
    RetryWithinCap(s, env, wid);
    CarriedOver(s, n, [], []);
  }

  lemma HandBackCarries(s: State, wid: MsgId, w: WorkerId, anchor: MsgId, now: int)
    requires CountersOk(s) && [] !in s.rows
    ensures CountersOk(s.(rows := DeletedAndReleased(s.rows, Worker(w), wid, Global, anchor, now)))
  {
    CarriedOver(s, s.(rows := DeletedAndReleased(s.rows, Worker(w), wid, Global, anchor, now)), [], []);
  }

  lemma AddedTaskCarries(s: State, t: TaskId, task: Task)
    requires CountersOk(s) && [] !in s.rows && !task.Resubmit?
    ensures CountersOk(s.(tasks := s.tasks[t := task]))
  {
    CarriedOver(s, s.(tasks := s.tasks[t := task]), [], []);
  }

  lemma DrainCarries(s: State, wid: MsgId, w: WorkerId, includeLeased: bool, t: TaskId, now: int)
    requires [] !in s.rows && CountersOk(s) && s.loadAttempts <= 256
    requires Enabled(s, DoDrain(wid, w, includeLeased, t, now))
    ensures var n := Drain(s, wid, w, includeLeased, t, now);
            CountersOk(n) && n.resubmits == s.resubmits && n.loadAttempts == s.loadAttempts
  {
    var row := s.rows[wid];
    var rid, anchor := Request(row), AnchorOf(row.body);
    match DrainDecision(s, row, includeLeased, now)
    case Leave =>
    case Finish(error) => AddedTaskCarries(s, t, Settle(rid, Fault(error), RowsOf(w, wid, anchor), false, false));
    case Discard => AddedTaskCarries(s, t, Drop(rid, RowsOf(w, wid, anchor)));
    case HandBack => HandBackCarries(s, wid, w, anchor, now);
    case Retry => RetryCarries(s, wid, w, t, row.body.env);
  }

  lemma LeaseCarries(s: State, wid: MsgId, w: WorkerId, t: TaskId, duration: int, now: int)
    requires [] !in s.rows && CountersOk(s) && Enabled(s, DoLease(wid, w, t, duration, now))
    ensures CountersOk(Lease(s, wid, w, t, duration, now))
  {
    CarriedOver(s, Lease(s, wid, w, t, duration, now), [], []);
  }

  lemma DispatchStepCounts(s: State, step: Step)
    requires [] !in s.rows && CountersOk(s)
    requires Enabled(s, step)
    requires step.DoBounce? || step.DoAbort? || step.DoStart? || step.DoAssignFailed? || step.DoStreamEnd?
    ensures var n := Next(s, step); CarriesOver(s, n, [], []) && RetriesCounted(s, n)
  {
  }

  lemma CancelQueuedCarries(s: State, id: MsgId, q: QueueName, t: TaskId, now: int)
    requires [] !in s.rows && CountersOk(s) && Enabled(s, DoCancelQueued(id, q, t, now))
    ensures CountersOk(CancelQueued(s, id, q, t))
  {
    CarriedOver(s, CancelQueued(s, id, q, t), [], []);
  }

  lemma AdvanceCounts(s: State, t: TaskId, id: MsgId, now: int)
    requires [] !in s.rows && CountersOk(s) && Enabled(s, DoAdvance(t, id, now)) && !s.tasks[t].Resubmit?
    ensures var n := Advance(s, t, id, now); CarriesOver(s, n, [], []) && RetriesCounted(s, n)
  {
  }

  lemma OtherStepCounts(s: State, step: Step)
    requires [] !in s.rows && CountersOk(s) && Enabled(s, step) && !IsDispatchStep(step) && !IsPlacementStep(step)
    ensures var n := Next(s, step); CarriesOver(s, n, [], []) && RetriesCounted(s, n)
  {
    if step.DoExtend? || step.DoReestimate? || step.DoCrash? || step.DoReap? {
      RowStepCounts(s, step);
    }
  }

  lemma RowStepCounts(s: State, step: Step)
    requires [] !in s.rows && CountersOk(s) && Enabled(s, step)
    requires step.DoExtend? || step.DoReestimate? || step.DoCrash? || step.DoReap?
    ensures var n := Next(s, step); CarriesOver(s, n, [], []) && RetriesCounted(s, n)
  {
    match step
    case DoExtend(wid, w, until) => ExtendCarries(s, wid, w, until);
    case DoReestimate(wid, w, queuedBits) => ReestimateCarries(s, wid, w, queuedBits);
    case DoCrash => CrashCarries(s);
    case DoReap(id, q, t, now) => ReapCarries(s, id, q, t);
  }

  lemma ExtendCarries(s: State, wid: MsgId, w: WorkerId, until: int)
    requires [] !in s.rows && CountersOk(s)
    ensures var n := s.(rows := Extended(s.rows, Worker(w), wid, until)); CarriesOver(s, n, [], []) && RetriesCounted(s, n)
  {
  }

  lemma ReestimateCarries(s: State, wid: MsgId, w: WorkerId, queuedBits: Bits64)
    requires [] !in s.rows && CountersOk(s)
    ensures var n := Reestimate(s, wid, w, queuedBits); CarriesOver(s, n, [], []) && RetriesCounted(s, n)
  {
  }

  lemma CrashCarries(s: State)
    requires [] !in s.rows && CountersOk(s)
    ensures CarriesOver(s, Crash(s), [], []) && RetriesCounted(s, Crash(s))
  {
  }

  lemma ReapCarries(s: State, id: MsgId, q: QueueName, t: TaskId)
    requires [] !in s.rows && CountersOk(s) && id in s.rows
    ensures CarriesOver(s, Reap(s, id, q, t), [], []) && RetriesCounted(s, Reap(s, id, q, t))
  {
    PlainTaskCarries(s, t, ReapOf(s, id, q));
  }

  lemma PlainTaskCarries(s: State, t: TaskId, task: Task)
    requires [] !in s.rows && CountersOk(s) && !task.Resubmit?
    ensures var n := s.(tasks := s.tasks[t := task]); CarriesOver(s, n, [], []) && RetriesCounted(s, n)
  {
  }

  lemma PlacementStepCounts(s: State, step: Step)
    requires [] !in s.rows && s.rows.Keys <= s.used && CountersOk(s) && s.loadAttempts <= 256
    requires Enabled(s, step) && IsPlacementStep(step)
    requires step.DoSubmit? ==> Inv(s)
    ensures CountersOk(Next(s, step))
  {
    match step
    case DoSubmit(env, id, now) => SubmitCounts(s, env, id, now);
    case DoPlace(gid, w, queuedBits, id, duration, now) =>
      PlaceCarries(s, gid, w, queuedBits, id, duration, now);
      CarriedOver(s, Place(s, gid, w, queuedBits, id, duration, now), id, gid);
    case DoFailUnbenchable(gid, error, t, now) => AddedTaskCarries(s, t, FailUnbenchable(s, gid, error, t).tasks[t]);
    case DoSteal(wid, src, dst, id, now) =>
      StealCarries(s, wid, src, dst, id, now);
      CarriedOver(s, Steal(s, wid, src, dst, id, now), id, wid);
    case DoDrain(wid, w, includeLeased, t, now) =>
      DrainCarries(s, wid, w, includeLeased, t, now);
    case DoEvict(wid, w, now) => HandBackCarries(s, wid, w, AnchorOf(s.rows[wid].body), now);
    case DoCancelQueued(id, q, t, now) => CancelQueuedCarries(s, id, q, t, now);
  }

  lemma StepKeepsCounters(s: State, step: Step)
    requires Inv(s) && CountersOk(s) && Enabled(s, step) && !Stale(s, step) && s.loadAttempts <= 256
    ensures CountersOk(Next(s, step))
  {
    IdsAreUsed(s);
    if step.DoAdvance? {
      if s.tasks[step.t].Resubmit? {
        ResubmissionCounts(s, step.t, step.id, step.now);
      } else {
        AdvanceCounts(s, step.t, step.id, step.now);
        CarriedOver(s, Advance(s, step.t, step.id, step.now), [], []);
      }
    } else if step.DoLoadFailed? {
      assert TaskOk(s, s.tasks[step.t]);
      LoadFailedCarries(s, step.t, step.error);
      CarriedOver(s, LoadFailed(s, step.t, step.error), [], []);
    } else if step.DoLease? {
      LeaseCarries(s, step.wid, step.w, step.t, step.duration, step.now);
    } else if IsDispatchStep(step) {
      DispatchStepCounts(s, step);
      CarriedOver(s, Next(s, step), [], []);
    } else if IsPlacementStep(step) {
      PlacementStepCounts(s, step);
    } else {
      OtherStepCounts(s, step);
      CarriedOver(s, Next(s, step), [], []);
    }
  }

  lemma SubmitCounts(s: State, env: Envelope, id: MsgId, now: int)
    requires Inv(s) && CountersOk(s) && Enabled(s, DoSubmit(env, id, now))
    ensures CountersOk(Submit(s, env, id, now))
  {
  }

  lemma ResubmissionCounts(s: State, t: TaskId, id: MsgId, now: int)
    requires Inv(s) && CountersOk(s) && Enabled(s, DoAdvance(t, id, now)) && s.tasks[t].Resubmit?
    ensures CountersOk(Advance(s, t, id, now))
  {
    var n := Advance(s, t, id, now);
    var rid := s.tasks[t].env.requestID;
    assert TaskOk(s, s.tasks[t]);
    forall u | u in n.tasks && n.tasks[u].Resubmit?
      ensures RetryCounted(n, n.tasks[u].env)
    {
      assert DistinctRetries(s.tasks[t], s.tasks[u]);
    }
  }

  // --- Over whole runs ---

  function Resubmissions(s: State, steps: seq<Step>, rid: RequestId): nat
    requires ValidRun(s, steps)
    decreases |steps|
  {
    if steps == [] then 0
    else (if IsResubmission(s, steps[0]) && s.tasks[steps[0].t].env.requestID == rid then 1 else 0)
         + Resubmissions(Next(s, steps[0]), steps[1..], rid)
  }

  function Count(s: State, rid: RequestId): nat { if rid in s.resubmits then s.resubmits[rid] else 0 }

  lemma {:induction false} CountersFollowTheRun(s: State, steps: seq<Step>, rid: RequestId)
    requires Inv(s) && CountersOk(s) && s.loadAttempts <= 256 && ValidRun(s, steps) && NoStaleRetry(s, steps)
    ensures Inv(Exec(s, steps)) && CountersOk(Exec(s, steps))
    ensures Count(s, rid) + Resubmissions(s, steps, rid) == Count(Exec(s, steps), rid)
    ensures Exec(s, steps).loadAttempts == s.loadAttempts
    decreases |steps|
  {
    if steps != [] {
      StepKeeps(s, steps[0]);
      StepKeepsCounters(s, steps[0]);
      if IsResubmission(s, steps[0]) { assert TaskOk(s, s.tasks[steps[0].t]); }
      OneStepCounts(s, steps[0], rid);
      CountersFollowTheRun(Next(s, steps[0]), steps[1..], rid);
    }
  }

  /** Only a submit and a resubmission touch the counters. */
  lemma OneStepCounts(s: State, step: Step, rid: RequestId)
    requires Enabled(s, step)
    requires IsResubmission(s, step) ==> s.tasks[step.t].env.requestID in s.resubmits
    ensures Count(Next(s, step), rid)
            == Count(s, rid) + if IsResubmission(s, step) && s.tasks[step.t].env.requestID == rid then 1 else 0
    ensures Next(s, step).loadAttempts == s.loadAttempts
  {
    if IsDispatchStep(step) {
      DispatchCounts(s, step, rid);
    } else {
      PlainStepCounts(s, step, rid);
    }
  }

  lemma DispatchCounts(s: State, step: Step, rid: RequestId)
    requires Enabled(s, step) && IsDispatchStep(step)
    requires IsResubmission(s, step) ==> s.tasks[step.t].env.requestID in s.resubmits
    ensures Count(Next(s, step), rid)
            == Count(s, rid) + if IsResubmission(s, step) && s.tasks[step.t].env.requestID == rid then 1 else 0
    ensures Next(s, step).loadAttempts == s.loadAttempts
  {
  }

  lemma PlainStepCounts(s: State, step: Step, rid: RequestId)
    requires Enabled(s, step) && !IsDispatchStep(step)
    ensures Count(Next(s, step), rid) == Count(s, rid) && Next(s, step).loadAttempts == s.loadAttempts
  {
  }

  /**
   Over any mix of load failures and disconnects in which no load fails after its row
   has gone, a request is resubmitted fewer times than the larger budget.
   */
  lemma RetriesAreBounded(loadAttempts: nat, steps: seq<Step>, rid: RequestId)
    requires loadAttempts <= 256 && ValidRun(Init(loadAttempts), steps) && NoStaleRetry(Init(loadAttempts), steps)
    ensures Resubmissions(Init(loadAttempts), steps, rid) <= Max(loadAttempts, 3) - 1
  {
    InitHolds(loadAttempts);
    CountersFollowTheRun(Init(loadAttempts), steps, rid);
  }
}
