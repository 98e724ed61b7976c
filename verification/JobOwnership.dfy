/**
 No job is stuck behind a lease: a leased worker row has a goroutine that will
 settle it, or is known to wait for a disconnect drain or a reap.
 */
module JobOwnership {
  import opened JobAccounting
  import opened JobInvariants
  import opened JobProtocol
  import opened JobSafety
  import opened LeaseQueue
  import opened ResultStore

  predicate Owns(task: Task, wid: MsgId) {
    match task
    case Loading(id, _, _) => id == wid
    case Streaming(id, _, _, _) => id == wid
    case Settle(_, _, after, _, _) => after.worker.Some? && after.worker.value.1 == wid
    case Announce(_, after, _) => after.worker.Some? && after.worker.value.1 == wid
    case Drop(_, after) => after.worker.Some? && after.worker.value.1 == wid
    case _ => false
  }

  predicate IsLeased(rows: Rows, wid: MsgId) { IsWorker(rows, wid) && rows[wid].received > 0 }

  ghost predicate HasOwner(s: State, wid: MsgId) {
    exists t :: t in s.tasks && Owns(s.tasks[t], wid)
  }

  ghost predicate AllOwned(s: State) {
    forall wid :: IsLeased(s.rows, wid) ==> wid in s.stranded || HasOwner(s, wid)
  }

  /** Only task `t` changed; what it owned it still owns, or is no longer leased, or is stranded. */
  lemma OwnersStay(s: State, n: State, t: TaskId)
    requires AllOwned(s) && s.stranded <= n.stranded
    requires forall u :: u in s.tasks && u != t ==> u in n.tasks && n.tasks[u] == s.tasks[u]
    requires forall wid :: IsLeased(n.rows, wid) ==> IsLeased(s.rows, wid) || (t in n.tasks && Owns(n.tasks[t], wid))
    requires t in s.tasks ==>
               forall wid :: IsLeased(n.rows, wid) && Owns(s.tasks[t], wid) ==>
                               wid in n.stranded || (t in n.tasks && Owns(n.tasks[t], wid))
    ensures AllOwned(n)
  {
    forall wid | IsLeased(n.rows, wid)
      ensures wid in n.stranded || HasOwner(n, wid)
    {
      if t in n.tasks && Owns(n.tasks[t], wid) {
      } else if wid !in s.stranded {
        var u :| u in s.tasks && Owns(s.tasks[u], wid);
        if u != t { assert Owns(n.tasks[u], wid); }
      }
    }
  }

  lemma SameOwners(s: State, n: State)
    requires AllOwned(s) && n.tasks == s.tasks && n.stranded == s.stranded
    requires forall wid :: IsLeased(n.rows, wid) ==> IsLeased(s.rows, wid)
    ensures AllOwned(n)
  {
    forall wid | IsLeased(n.rows, wid)
      ensures wid in n.stranded || HasOwner(n, wid)
    {
      assert IsLeased(s.rows, wid);
    }
  }

  lemma DispatchStepOwns(s: State, step: Step)
    requires AllOwned(s) && Enabled(s, step)
    requires step.DoBounce? || step.DoAbort? || step.DoStart? || step.DoAssignFailed? || step.DoStreamEnd?
    requires TaskOk(s, s.tasks[step.t])
    ensures AllOwned(Next(s, step))
  {
    OwnersStay(s, Next(s, step), step.t);
  }

  lemma LeaseOwns(s: State, wid: MsgId, w: WorkerId, t: TaskId, duration: int, now: int)
    requires AllOwned(s) && Enabled(s, DoLease(wid, w, t, duration, now))
    ensures AllOwned(Lease(s, wid, w, t, duration, now))
  {
    OwnersStay(s, Lease(s, wid, w, t, duration, now), t);
  }

  lemma LoadFailedOwns(s: State, t: TaskId, error: string)
    requires AllOwned(s) && Enabled(s, DoLoadFailed(t, error)) && TaskOk(s, s.tasks[t])
    ensures AllOwned(LoadFailed(s, t, error))
  {
    OwnersStay(s, LoadFailed(s, t, error), t);
  }

  lemma AdvanceOwns(s: State, t: TaskId, id: MsgId, now: int)
    requires AllOwned(s) && Enabled(s, DoAdvance(t, id, now)) && TaskOk(s, s.tasks[t])
    ensures AllOwned(Advance(s, t, id, now))
  {
    OwnersStay(s, Advance(s, t, id, now), t);
  }

  lemma DrainOwns(s: State, wid: MsgId, w: WorkerId, includeLeased: bool, t: TaskId, now: int)
    requires AllOwned(s) && Enabled(s, DoDrain(wid, w, includeLeased, t, now))
    ensures AllOwned(Drain(s, wid, w, includeLeased, t, now))
  {
    var row := s.rows[wid];
    var rid, anchor := Request(row), AnchorOf(row.body);
    match DrainDecision(s, row, includeLeased, now)
    case Leave =>
    case Finish(error) => OwnersStay(s, s.(tasks := s.tasks[t := Settle(rid, Fault(error), RowsOf(w, wid, anchor), false, false)]), t);
    case Discard => OwnersStay(s, s.(tasks := s.tasks[t := Drop(rid, RowsOf(w, wid, anchor))]), t);
    case HandBack => SameOwners(s, s.(rows := DeletedAndReleased(s.rows, Worker(w), wid, Global, anchor, now)));
    case Retry =>
      OwnersStay(s, s.(rows := BothDeleted(s.rows, Worker(w), wid, Global, anchor),
                       tasks := s.tasks[t := Resubmit(Retried(row.body.env), true)]), t);
  }

  lemma PlacementStepOwns(s: State, step: Step)
    requires AllOwned(s) && Enabled(s, step)
    requires step.DoSubmit? || step.DoPlace? || step.DoSteal? || step.DoEvict?
    ensures AllOwned(Next(s, step))
  {
    SameOwners(s, Next(s, step));
  }

  lemma TaskAddingStepOwns(s: State, step: Step)
    requires AllOwned(s) && Enabled(s, step)
    requires step.DoFailUnbenchable? || step.DoCancelQueued? || step.DoReapBuffer? || step.DoReap?
    ensures AllOwned(Next(s, step))
  {
    OwnersStay(s, Next(s, step), step.t);
  }

  lemma OtherStepOwns(s: State, step: Step)
    requires AllOwned(s) && Enabled(s, step)
    requires step.DoCancelRunning? || step.DoSweepBuffer? || step.DoCleanup? || step.DoExtend? || step.DoReestimate?
    ensures AllOwned(Next(s, step))
  {
    SameOwners(s, Next(s, step));
  }

  lemma StepOwns(s: State, step: Step)
    requires Inv(s) && AllOwned(s) && Enabled(s, step)
    ensures AllOwned(Next(s, step))
  {
    if IsDispatchStep(step) {
      if step.DoLease? {
        LeaseOwns(s, step.wid, step.w, step.t, step.duration, step.now);
      } else {
        assert TaskOk(s, s.tasks[step.t]);
        if step.DoLoadFailed? {
          LoadFailedOwns(s, step.t, step.error);
        } else if step.DoAdvance? {
          AdvanceOwns(s, step.t, step.id, step.now);
        } else {
          DispatchStepOwns(s, step);
        }
      }
    } else if step.DoDrain? {
      DrainOwns(s, step.wid, step.w, step.includeLeased, step.t, step.now);
    } else if step.DoFailUnbenchable? || step.DoCancelQueued? || step.DoReapBuffer? || step.DoReap? {
      TaskAddingStepOwns(s, step);
    } else if IsPlacementStep(step) {
      PlacementStepOwns(s, step);
    } else if step.DoCrash? {
      assert AllOwned(Crash(s));
    } else {
      OtherStepOwns(s, step);
    }
  }

  lemma {:induction false} RunOwns(s: State, steps: seq<Step>)
    requires Inv(s) && AllOwned(s) && ValidRun(s, steps) && NoDoubling(s, steps)
    ensures AllOwned(Exec(s, steps))
    decreases |steps|
  {
    if steps != [] {
      StepKeeps(s, steps[0]);
      StepOwns(s, steps[0]);
      RunOwns(Next(s, steps[0]), steps[1..]);
    }
  }

  /** A row that a lease can still take at some clock reading. */
  predicate Takeable(rows: Rows, rid: RequestId, id: MsgId) {
    id in rows && Request(rows[id]) == rid && rows[id].received == 0
  }

  /** The request's leased worker row, with a task that will settle it, or waiting for a drain or a reap. */
  ghost predicate Held(s: State, rid: RequestId, wid: MsgId) {
    IsLeased(s.rows, wid) && Request(s.rows[wid]) == rid && (wid in s.stranded || HasOwner(s, wid))
  }

  /**
   Over every run whose crashes miss the gaps and in which no stale retry doubles a job, an unanswered request outside its
   own cancel or retry has a row some lease can take, or a leased row with an
   owner, or a leased row left by a dead worker or a dead process.
   */
  lemma NoJobIsStuck(loadAttempts: nat, steps: seq<Step>, rid: RequestId)
    requires ValidRun(Init(loadAttempts), steps)
    requires NoDoubling(Init(loadAttempts), steps) && CrashesAreSafe(Init(loadAttempts), steps)
    requires var s := Exec(Init(loadAttempts), steps); rid in s.resubmits && rid !in s.decided && !InGap(s, rid)
    ensures var s := Exec(Init(loadAttempts), steps);
            (exists id :: Takeable(s.rows, rid, id)) || (exists wid :: Held(s, rid, wid))
  {
    InitHolds(loadAttempts);
    RunAccounts(Init(loadAttempts), steps);
    RunOwns(Init(loadAttempts), steps);
    var s := Exec(Init(loadAttempts), steps);
    assert Accounted(s, rid);
    if id :| WaitingRow(s.rows, rid, id) {
      assert Takeable(s.rows, rid, id);
    } else {
      var wid :| AnchoredRow(s.rows, rid, wid);
      if s.rows[wid].received == 0 {
        assert Takeable(s.rows, rid, wid);
      } else {
        assert Held(s, rid, wid);
      }
    }
  }
}
