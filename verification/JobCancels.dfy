/**
 What an operator's cancel of a running job stops, over runs of the whole protocol: the
 pump, the disconnect drain with its own reading of the flag, and everything between.
 */
module JobCancels {
  import opened EnvelopeCodec
  import opened JobInvariants
  import opened JobProtocol
  import opened JobSafety
  import opened LeaseQueue
  import opened ResultStore

  // --- Another placement ---

  predicate Undelivered(rows: Rows, rid: RequestId, id: MsgId) {
    id in rows && Request(rows[id]) == rid && rows[id].received == 0
  }

  predicate Retrying(task: Task, rid: RequestId) { task.Resubmit? && task.env.requestID == rid }

  predicate Dispatching(task: Task, rid: RequestId) { task.Loading? && task.env.requestID == rid }

  /** The request has a placement open besides a stream: a row some lease can take, a resubmission pending, or a load running. */
  ghost predicate Elsewhere(s: State, rid: RequestId) {
    || (exists id :: Undelivered(s.rows, rid, id))
    || (exists t :: t in s.tasks && Retrying(s.tasks[t], rid))
    || (exists t :: t in s.tasks && Dispatching(s.tasks[t], rid))
  }

  /** What keeps a drain from placing the request again: the cancel on its record, or a stored answer. */
  predicate Guarded(s: State, rid: RequestId) { CancelRecorded(s, rid) || TerminalIn(s.results, rid) }

  /** No row of the request is evicted with its anchor there, which takes a delivered row whose lease lapsed. */
  predicate EvictGuarded(s: State, step: Step, rid: RequestId) {
    step.DoEvict? && step.wid in s.rows && Request(s.rows[step.wid]) == rid ==> AnchorOf(s.rows[step.wid].body) !in s.rows
  }

  /** A drain that comes to a row of the request finds it guarded. */
  predicate DrainGuarded(s: State, step: Step, rid: RequestId) {
    step.DoDrain? && step.wid in s.rows && Request(s.rows[step.wid]) == rid ==> Guarded(s, rid)
  }

  /** No drain comes to the request while nothing guards it, and no evict hands it back. */
  ghost predicate Watched(s: State, steps: seq<Step>, rid: RequestId)
    requires ValidRun(s, steps)
    decreases |steps|
  {
    steps == [] || (DrainGuarded(s, steps[0], rid) && EvictGuarded(s, steps[0], rid) && Watched(Next(s, steps[0]), steps[1..], rid))
  }

  // --- A guarded request gets no placement it does not have ---

  /** Undelivered rows, resubmissions and loads of the request are old ones. */
  ghost predicate Confines(s: State, n: State, rid: RequestId) {
    && (forall id :: Undelivered(n.rows, rid, id) ==> Undelivered(s.rows, rid, id))
    && (forall t :: t in n.tasks && (Retrying(n.tasks[t], rid) || Dispatching(n.tasks[t], rid)) ==>
                      t in s.tasks && s.tasks[t] == n.tasks[t])
  }

  lemma ConfinedStaysHere(s: State, n: State, rid: RequestId)
    requires !Elsewhere(s, rid) && Confines(s, n, rid)
    ensures !Elsewhere(n, rid)
  {
    forall id
      ensures !Undelivered(n.rows, rid, id)
    {
      assert !Undelivered(s.rows, rid, id);
    }
    forall t | t in n.tasks
      ensures !Retrying(n.tasks[t], rid) && !Dispatching(n.tasks[t], rid)
    {
      if t in s.tasks { assert !Retrying(s.tasks[t], rid) && !Dispatching(s.tasks[t], rid); }
    }
  }

  lemma SubmitConfines(s: State, env: Envelope, id: MsgId, now: int, rid: RequestId)
    requires rid in s.resubmits && Enabled(s, DoSubmit(env, id, now))
    ensures Confines(s, Submit(s, env, id, now), rid)
  {
  }

  /** Rows that stay are delivered as often as before. */
  ghost predicate Rests(rows: Rows, rest: Rows, rid: RequestId) {
    forall id :: Undelivered(rest, rid, id) ==> Undelivered(rows, rid, id)
  }

  lemma TaskConfines(s: State, rows: Rows, t: TaskId, task: Task, rid: RequestId)
    requires Rests(s.rows, rows, rid) && !Retrying(task, rid) && !Dispatching(task, rid)
    ensures Confines(s, s.(rows := rows, tasks := s.tasks[t := task]), rid) && Confines(s, s.(rows := rows), rid)
  {
  }

  /** A row of the request that a placement or a steal could take would be undelivered. */
  lemma PlaceConfines(s: State, gid: MsgId, w: WorkerId, queuedBits: Bits64, id: MsgId, duration: int, now: int, rid: RequestId)
    requires RowsOk(s.rows, s.used) && !Elsewhere(s, rid) && Enabled(s, DoPlace(gid, w, queuedBits, id, duration, now))
    ensures Confines(s, Place(s, gid, w, queuedBits, id, duration, now), rid)
  {
    assert RowOk(s.rows, s.used, gid);
    if Leasable(s.rows, Global, gid, now) {
      assert Undelivered(s.rows, Request(s.rows[gid]), gid);
      PlacedRowsRest(s.rows, gid, w, queuedBits, id, duration, now, rid);
    }
    TaskConfines(s, Place(s, gid, w, queuedBits, id, duration, now).rows, 0, CancelSettle(rid), rid);
  }

  lemma PlacedRowsRest(rows: Rows, gid: MsgId, w: WorkerId, queuedBits: Bits64, id: MsgId, duration: int, now: int, rid: RequestId)
    requires gid in rows && rows[gid].body.Decoded? && Leasable(rows, Global, gid, now) && Request(rows[gid]) != rid
    ensures var env := rows[gid].body.env.(globalMsgID := gid, queuedBits := queuedBits);
            Rests(rows, LeasedAndSubmitted(rows, Global, gid, duration, Worker(w), env, id, now), rid)
  {
  }

  lemma StealConfines(s: State, wid: MsgId, src: WorkerId, dst: WorkerId, id: MsgId, now: int, rid: RequestId)
    requires RowsOk(s.rows, s.used) && !Elsewhere(s, rid) && Enabled(s, DoSteal(wid, src, dst, id, now))
    ensures Confines(s, Steal(s, wid, src, dst, id, now), rid)
  {
    assert RowOk(s.rows, s.used, wid);
    if Leasable(s.rows, Worker(src), wid, now) {
      assert Undelivered(s.rows, Request(s.rows[wid]), wid);
    }
  }

  /** Dropping rows leaves the rest; handing one back touches its own request only. */
  lemma DroppedRowsRest(rows: Rows, used: set<MsgId>, wid: MsgId, w: WorkerId, now: int, rid: RequestId)
    requires RowsOk(rows, used) && On(rows, Worker(w), wid)
    ensures Rests(rows, BothDeleted(rows, Worker(w), wid, Global, AnchorOf(rows[wid].body)), rid)
    ensures Request(rows[wid]) != rid || AnchorOf(rows[wid].body) !in rows ==>
              Rests(rows, DeletedAndReleased(rows, Worker(w), wid, Global, AnchorOf(rows[wid].body), now), rid)
  {
    assert RowOk(rows, used, wid);
    assert AnchorAgrees(rows, wid);
  }

  lemma DrainConfines(s: State, wid: MsgId, w: WorkerId, includeLeased: bool, t: TaskId, now: int, rid: RequestId)
    requires RowsOk(s.rows, s.used) && Enabled(s, DoDrain(wid, w, includeLeased, t, now))
    requires DrainGuarded(s, DoDrain(wid, w, includeLeased, t, now), rid)
    ensures Confines(s, Drain(s, wid, w, includeLeased, t, now), rid)
  {
    var n, row := Drain(s, wid, w, includeLeased, t, now), s.rows[wid];
    var action := DrainDecision(s, row, includeLeased, now);
    assert RowOk(s.rows, s.used, wid);
    assert action.HandBack? || action.Retry? ==> Request(row) != rid;
    DroppedRowsRest(s.rows, s.used, wid, w, now, rid);
    if action.Finish? || action.Discard? || action.Retry? {
      TaskConfines(s, n.rows, t, n.tasks[t], rid);
    } else {
      TaskConfines(s, n.rows, t, CancelSettle(rid), rid);
    }
  }

  lemma EvictConfines(s: State, wid: MsgId, w: WorkerId, now: int, rid: RequestId)
    requires RowsOk(s.rows, s.used) && !Elsewhere(s, rid) && Enabled(s, DoEvict(wid, w, now)) && EvictGuarded(s, DoEvict(wid, w, now), rid)
    ensures Confines(s, Evict(s, wid, w, now), rid)
  {
    DroppedRowsRest(s.rows, s.used, wid, w, now, rid);
    TaskConfines(s, Evict(s, wid, w, now).rows, 0, CancelSettle(rid), rid);
  }

  lemma CancelQueuedConfines(s: State, id: MsgId, q: QueueName, t: TaskId, now: int, rid: RequestId)
    requires Enabled(s, DoCancelQueued(id, q, t, now))
    ensures Confines(s, CancelQueued(s, id, q, t), rid)
  {
    TaskConfines(s, CancelQueued(s, id, q, t).rows, t, CancelSettle(Request(s.rows[id])), rid);
  }

  lemma LeaseConfines(s: State, wid: MsgId, w: WorkerId, t: TaskId, duration: int, now: int, rid: RequestId)
    requires RowsOk(s.rows, s.used) && !Elsewhere(s, rid) && Enabled(s, DoLease(wid, w, t, duration, now))
    ensures Confines(s, Lease(s, wid, w, t, duration, now), rid)
  {
    assert RowOk(s.rows, s.used, wid);
    assert Undelivered(s.rows, Request(s.rows[wid]), wid);
  }

  lemma LoadConfines(s: State, t: TaskId, rid: RequestId)
    requires !Elsewhere(s, rid) && t in s.tasks && s.tasks[t].Loading?
    ensures s.tasks[t].env.requestID != rid
  {
    assert !Dispatching(s.tasks[t], rid);
  }

  lemma BounceConfines(s: State, t: TaskId, delay: int, now: int, rid: RequestId)
    requires !Elsewhere(s, rid) && Enabled(s, DoBounce(t, delay, now)) && TaskOk(s, s.tasks[t])
    ensures Confines(s, Bounce(s, t, delay, now), rid)
  {
    LoadConfines(s, t, rid);
  }

  lemma LoadFailedConfines(s: State, t: TaskId, error: string, rid: RequestId)
    requires !Elsewhere(s, rid) && Enabled(s, DoLoadFailed(t, error))
    ensures Confines(s, LoadFailed(s, t, error), rid)
  {
    LoadConfines(s, t, rid);
    TaskConfines(s, LoadFailed(s, t, error).rows, t, LoadFailed(s, t, error).tasks[t], rid);
  }

  lemma StreamConfines(s: State, step: Step, rid: RequestId)
    requires Enabled(s, step)
    requires step.DoAbort? || step.DoStart? || step.DoAssignFailed? || step.DoStreamEnd?
    ensures Confines(s, Next(s, step), rid)
  {
  }

  lemma AdvanceConfines(s: State, t: TaskId, id: MsgId, now: int, rid: RequestId)
    requires !Elsewhere(s, rid) && Enabled(s, DoAdvance(t, id, now))
    ensures Confines(s, Advance(s, t, id, now), rid)
  {
    assert !Retrying(s.tasks[t], rid);
  }

  lemma OtherConfines(s: State, step: Step, rid: RequestId)
    requires Enabled(s, step) && !IsDispatchStep(step) && !IsPlacementStep(step)
    ensures Confines(s, Next(s, step), rid)
  {
  }

  lemma StepConfines(s: State, step: Step, rid: RequestId)
    requires Inv(s) && Enabled(s, step) && rid in s.resubmits && !Elsewhere(s, rid)
    requires DrainGuarded(s, step, rid) && EvictGuarded(s, step, rid)
    ensures Confines(s, Next(s, step), rid)
  {
    if IsPlacementStep(step) {
      PlacementConfines(s, step, rid);
    } else if IsDispatchStep(step) {
      DispatchConfines(s, step, rid);
    } else {
      OtherConfines(s, step, rid);
    }
  }

  lemma PlacementConfines(s: State, step: Step, rid: RequestId)
    requires Inv(s) && Enabled(s, step) && rid in s.resubmits && !Elsewhere(s, rid)
    requires DrainGuarded(s, step, rid) && EvictGuarded(s, step, rid)
    requires IsPlacementStep(step)
    ensures Confines(s, Next(s, step), rid)
  {
    if step.DoSubmit? {
      SubmitConfines(s, step.env, step.id, step.now, rid);
    } else if step.DoPlace? {
      PlaceConfines(s, step.gid, step.w, step.queuedBits, step.id, step.duration, step.now, rid);
    } else if step.DoSteal? {
      StealConfines(s, step.wid, step.src, step.dst, step.id, step.now, rid);
    } else if step.DoDrain? {
      DrainConfines(s, step.wid, step.w, step.includeLeased, step.t, step.now, rid);
    } else if step.DoEvict? {
      EvictConfines(s, step.wid, step.w, step.now, rid);
    } else if step.DoCancelQueued? {
      CancelQueuedConfines(s, step.id, step.q, step.t, step.now, rid);
    } else {
      TaskConfines(s, s.rows, step.t, Next(s, step).tasks[step.t], rid);
    }
  }

  lemma DispatchConfines(s: State, step: Step, rid: RequestId)
    requires Inv(s) && Enabled(s, step) && !Elsewhere(s, rid) && IsDispatchStep(step)
    ensures Confines(s, Next(s, step), rid)
  {
    if step.DoLease? {
      LeaseConfines(s, step.wid, step.w, step.t, step.duration, step.now, rid);
    } else if step.DoBounce? {
      assert TaskOk(s, s.tasks[step.t]);
      BounceConfines(s, step.t, step.delay, step.now, rid);
    } else if step.DoLoadFailed? {
      LoadFailedConfines(s, step.t, step.error, rid);
    } else if step.DoAdvance? {
      AdvanceConfines(s, step.t, step.id, step.now, rid);
    } else {
      StreamConfines(s, step, rid);
    }
  }

  lemma RequestStaysKnown(s: State, step: Step, rid: RequestId)
    requires Enabled(s, step) && rid in s.resubmits
    ensures rid in Next(s, step).resubmits
  {
    if IsDispatchStep(step) { DispatchStaysKnown(s, step, rid); }
  }

  lemma DispatchStaysKnown(s: State, step: Step, rid: RequestId)
    requires Enabled(s, step) && rid in s.resubmits && IsDispatchStep(step)
    ensures rid in Next(s, step).resubmits
  {
  }

  lemma {:induction false} WatchedStaysHere(s: State, steps: seq<Step>, rid: RequestId)
    requires Inv(s) && rid in s.resubmits && !Elsewhere(s, rid)
    requires ValidRun(s, steps) && NoDoubling(s, steps) && Watched(s, steps, rid)
    ensures !Elsewhere(Exec(s, steps), rid)
    decreases |steps|
  {
    if steps != [] {
      var n := Next(s, steps[0]);
      StepKeeps(s, steps[0]);
      StepConfines(s, steps[0], rid);
      ConfinedStaysHere(s, n, rid);
      RequestStaysKnown(s, steps[0], rid);
      WatchedStaysHere(n, steps[1..], rid);
    }
  }

  /** Some run with its drains guarded opens another placement. */
  ghost predicate MayGoElsewhere(s: State, rid: RequestId) {
    exists steps: seq<Step> ::
      ValidRun(s, steps) && NoDoubling(s, steps) && Watched(s, steps, rid) && Elsewhere(Exec(s, steps), rid)
  }

  /**
   A cancel recorded in flight holds exactly when the job has no other placement at that
   moment: no row a lease can take, no resubmission pending, no load running. No stream end,
   steal, dispatch, crash or reap that follows opens one, and no drain that finds the cancel
   still recorded or its verdict stored. The two steps that can are [DrainGoesElsewhereExactly]
   and [EvictGoesElsewhereExactly].
   */
  lemma CancelHoldsExactly(s: State, rid: RequestId)
    requires Inv(s) && Enabled(s, DoCancelRunning(rid))
    ensures MayGoElsewhere(Next(s, DoCancelRunning(rid)), rid) <==> Elsewhere(s, rid)
  {
    var n := Next(s, DoCancelRunning(rid));
    StepKeeps(s, DoCancelRunning(rid));
    assert Elsewhere(n, rid) <==> Elsewhere(s, rid);
    if Elsewhere(s, rid) {
      assert ValidRun(n, []) && NoDoubling(n, []) && Watched(n, [], rid) && Elsewhere(Exec(n, []), rid);
    } else {
      forall steps: seq<Step> | ValidRun(n, steps) && NoDoubling(n, steps) && Watched(n, steps, rid)
        ensures !Elsewhere(Exec(n, steps), rid)
      {
        WatchedStaysHere(n, steps, rid);
      }
    }
  }

  /** A drain opens another placement for a job on its worker exactly when nothing guards it and attempts are left, or its lease ran out. */
  lemma DrainGoesElsewhereExactly(s: State, wid: MsgId, w: WorkerId, t: TaskId, now: int)
    requires Inv(s) && Enabled(s, DoDrain(wid, w, true, t, now))
    requires AnchorOf(s.rows[wid].body) in s.rows && !Elsewhere(s, Request(s.rows[wid]))
    ensures var row := s.rows[wid];
            Elsewhere(Drain(s, wid, w, true, t, now), Request(row))
            <==> !Guarded(s, Request(row)) && (Attempts(row) + 1 < DISCONNECT_REQUEUE_BUDGET || !LeaseOpen(row, now))
  {
    var n, row := Drain(s, wid, w, true, t, now), s.rows[wid];
    var rid, action := Request(row), DrainDecision(s, row, true, now);
    assert RowOk(s.rows, s.used, wid);
    assert AnchorAgrees(s.rows, wid);
    DroppedRowsRest(s.rows, s.used, wid, w, now, rid);
    if action.HandBack? {
      assert Undelivered(n.rows, rid, AnchorOf(row.body));
    } else if action.Retry? {
      assert Retrying(n.tasks[t], rid);
    } else {
      if action.Finish? || action.Discard? {
        TaskConfines(s, n.rows, t, n.tasks[t], rid);
      }
      ConfinedStaysHere(s, n, rid);
    }
  }

  /** An evict does so exactly when the row it takes has its anchor: the row was delivered and its lease lapsed under the job. */
  lemma EvictGoesElsewhereExactly(s: State, wid: MsgId, w: WorkerId, now: int)
    requires Inv(s) && Enabled(s, DoEvict(wid, w, now)) && !Elsewhere(s, Request(s.rows[wid]))
    ensures var row := s.rows[wid];
            && (Elsewhere(Evict(s, wid, w, now), Request(row)) <==> AnchorOf(row.body) in s.rows)
            && row.received > 0 && !LeaseOpen(row, now)
  {
    var n, row := Evict(s, wid, w, now), s.rows[wid];
    var rid := Request(row);
    assert RowOk(s.rows, s.used, wid);
    assert AnchorAgrees(s.rows, wid);
    assert !Undelivered(s.rows, rid, wid);
    if AnchorOf(row.body) in s.rows {
      assert Undelivered(n.rows, rid, AnchorOf(row.body));
    } else {
      EvictConfines(s, wid, w, now, rid);
      ConfinedStaysHere(s, n, rid);
    }
  }

  /** A drain that comes to a guarded row leaves every row where it is, and at most settles or drops its own. */
  lemma CancelledIsNotRequeued(s: State, wid: MsgId, w: WorkerId, includeLeased: bool, t: TaskId, now: int)
    requires Enabled(s, DoDrain(wid, w, includeLeased, t, now)) && s.rows[wid].body.Decoded? && Guarded(s, Request(s.rows[wid]))
    ensures var n := Drain(s, wid, w, includeLeased, t, now);
            && n.rows == s.rows
            && (t in n.tasks ==> n.tasks[t].Settle? || n.tasks[t].Drop?)
  {
  }

  /** Once the ended stream's verdict is stored the request is guarded again. */
  lemma StoredVerdictGuards(s: State, t: TaskId, id: MsgId, now: int)
    requires t in s.tasks && s.tasks[t].Settle? && s.tasks[t].rid in s.results
    ensures Guarded(Advance(s, t, id, now), s.tasks[t].rid)
  {
  }
}
