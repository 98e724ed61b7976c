/**
 No job is lost: at every step of every run, a submitted request has had a
 terminal result stored, or sits on the global queue waiting for placement, or
 sits on one worker queue behind its leased anchor, or is between two steps of
 its own cancel or retry.
 */
module JobAccounting {
  import opened EnvelopeCodec
  import opened JobInvariants
  import opened JobProtocol
  import opened JobSafety
  import opened LeaseQueue
  import opened ResultStore

  predicate WaitingRow(rows: Rows, rid: RequestId, id: MsgId) {
    IsGlobal(rows, id) && rows[id].received == 0 && Request(rows[id]) == rid
  }

  predicate AnchoredRow(rows: Rows, rid: RequestId, id: MsgId) {
    IsWorker(rows, id) && Request(rows[id]) == rid && AnchorOf(rows[id].body) in rows
  }

  /** The job can still be placed or run from what is on disk. */
  ghost predicate OnDisk(rows: Rows, rid: RequestId) {
    || (exists id :: WaitingRow(rows, rid, id))
    || (exists id :: AnchoredRow(rows, rid, id))
  }

  /** Between deleting a job's rows and the write that follows. */
  predicate IsGap(task: Task, rid: RequestId) {
    || (task.CancelSettle? && task.rid == rid)
    || (task.Resubmit? && task.env.requestID == rid)
  }

  ghost predicate InGap(s: State, rid: RequestId) {
    exists t :: t in s.tasks && IsGap(s.tasks[t], rid)
  }

  ghost predicate Accounted(s: State, rid: RequestId) {
    rid in s.decided || OnDisk(s.rows, rid) || InGap(s, rid)
  }

  ghost predicate AllAccounted(s: State) {
    forall rid :: rid in s.resubmits ==> Accounted(s, rid)
  }

  // --- Requests a step does not touch ---

  predicate RowStays(s: State, n: State, id: MsgId)
    requires id in s.rows
  {
    && id in n.rows
    && n.rows[id].queue == s.rows[id].queue
    && Request(n.rows[id]) == Request(s.rows[id])
    && AnchorOf(n.rows[id].body) == AnchorOf(s.rows[id].body)
    && (s.rows[id].queue.Global? ==> n.rows[id].received == s.rows[id].received)
  }

  ghost predicate Untouched(s: State, n: State, rid: RequestId) {
    && (forall id :: id in s.rows && Request(s.rows[id]) == rid ==> RowStays(s, n, id))
    && (forall t :: t in s.tasks && IsGap(s.tasks[t], rid) ==> t in n.tasks && n.tasks[t] == s.tasks[t])
    && s.decided <= n.decided
  }

  lemma UntouchedStaysAccounted(s: State, n: State, rid: RequestId)
    requires RowsOk(s.rows, s.used) && Accounted(s, rid) && Untouched(s, n, rid)
    ensures Accounted(n, rid)
  {
    if rid in s.decided {
    } else if id :| WaitingRow(s.rows, rid, id) {
      assert RowStays(s, n, id);
      assert WaitingRow(n.rows, rid, id);
    } else if id :| AnchoredRow(s.rows, rid, id) {
      assert RowOk(s.rows, s.used, id);
      assert RowStays(s, n, id) && RowStays(s, n, AnchorOf(s.rows[id].body));
      assert AnchoredRow(n.rows, rid, id);
    } else {
      var t :| t in s.tasks && IsGap(s.tasks[t], rid);
      assert IsGap(n.tasks[t], rid);
    }
  }

  /** One request changed hands, all others were left alone. */
  lemma AllButOne(s: State, n: State, own: RequestId)
    requires RowsOk(s.rows, s.used) && AllAccounted(s)
    requires n.resubmits.Keys <= s.resubmits.Keys + {own}
    requires forall rid :: rid in s.resubmits && rid != own ==> Untouched(s, n, rid)
    requires own in n.resubmits ==> Accounted(n, own)
    ensures AllAccounted(n)
  {
    forall rid | rid in n.resubmits
      ensures Accounted(n, rid)
    {
      if rid != own { UntouchedStaysAccounted(s, n, rid); }
    }
  }

  /** A step that keeps every row in place and every gap task pending. */
  lemma NothingMoved(s: State, n: State)
    requires RowsOk(s.rows, s.used) && AllAccounted(s)
    requires n.resubmits == s.resubmits && s.decided <= n.decided
    requires forall id :: id in s.rows ==> RowStays(s, n, id)
    requires forall t :: t in s.tasks && (s.tasks[t].CancelSettle? || s.tasks[t].Resubmit?) ==> t in n.tasks && n.tasks[t] == s.tasks[t]
    ensures AllAccounted(n)
  {
    forall rid | rid in n.resubmits
      ensures Accounted(n, rid)
    {
      UntouchedStaysAccounted(s, n, rid);
    }
  }

  // --- Steps that move a job ---

  lemma SubmitAccounts(s: State, env: Envelope, id: MsgId, now: int)
    requires RowsOk(s.rows, s.used) && AllAccounted(s) && Enabled(s, DoSubmit(env, id, now))
    ensures AllAccounted(Submit(s, env, id, now))
  {
    var n := Submit(s, env, id, now);
    assert WaitingRow(n.rows, env.requestID, id);
    FreshIdIsNoRow(s, id);
    AllButOne(s, n, env.requestID);
  }

  lemma FreshIdIsNoRow(s: State, id: MsgId)
    requires RowsOk(s.rows, s.used) && IsFresh(s, id)
    ensures id !in s.rows
  {
    assert id in s.rows ==> RowOk(s.rows, s.used, id);
  }

  lemma PlaceAccounts(s: State, gid: MsgId, w: WorkerId, queuedBits: Bits64, id: MsgId, duration: int, now: int)
    requires RowsOk(s.rows, s.used) && AllAccounted(s) && Enabled(s, DoPlace(gid, w, queuedBits, id, duration, now))
    ensures AllAccounted(Place(s, gid, w, queuedBits, id, duration, now))
  {
    var n := Place(s, gid, w, queuedBits, id, duration, now);
    FreshIdIsNoRow(s, id);
    assert RowOk(s.rows, s.used, gid);
    if Leasable(s.rows, Global, gid, now) {
      assert AnchoredRow(n.rows, Request(s.rows[gid]), id);
      AllButOne(s, n, Request(s.rows[gid]));
    } else {
      NothingMoved(s, n);
    }
  }

  lemma StealAccounts(s: State, wid: MsgId, src: WorkerId, dst: WorkerId, id: MsgId, now: int)
    requires RowsOk(s.rows, s.used) && AllAccounted(s) && Enabled(s, DoSteal(wid, src, dst, id, now))
    ensures AllAccounted(Steal(s, wid, src, dst, id, now))
  {
    var n := Steal(s, wid, src, dst, id, now);
    FreshIdIsNoRow(s, id);
    assert RowOk(s.rows, s.used, wid);
    var rid := Request(s.rows[wid]);
    if !Leasable(s.rows, Worker(src), wid, now) {
      NothingMoved(s, n);
      return;
    }
    if rid in s.resubmits {
      if AnchorOf(s.rows[wid].body) in s.rows {
        assert AnchoredRow(n.rows, rid, id);
      } else {
        UnanchoredIsNotOnDisk(s.rows, s.used, wid);
        if rid !in s.decided {
          var t :| t in s.tasks && IsGap(s.tasks[t], rid);
          assert IsGap(n.tasks[t], rid);
        }
      }
    }
    AllButOne(s, n, rid);
  }

  /** A worker row that lost its anchor is all its request has left on disk, and no longer counts. */
  lemma UnanchoredIsNotOnDisk(rows: Rows, used: set<MsgId>, wid: MsgId)
    requires RowsOk(rows, used) && IsWorker(rows, wid) && AnchorOf(rows[wid].body) !in rows
    ensures !OnDisk(rows, Request(rows[wid]))
  {
    forall id | id in rows
      ensures !WaitingRow(rows, Request(rows[wid]), id) && !AnchoredRow(rows, Request(rows[wid]), id)
    {
      assert PairOk(rows, id, wid);
    }
  }

  /** Handing a worker row back leaves its job waiting on the global queue, unless its anchor was gone already. */
  lemma HandBackAccounts(s: State, wid: MsgId, w: WorkerId, now: int)
    requires RowsOk(s.rows, s.used) && AllAccounted(s) && On(s.rows, Worker(w), wid)
    ensures AllAccounted(s.(rows := DeletedAndReleased(s.rows, Worker(w), wid, Global, AnchorOf(s.rows[wid].body), now)))
  {
    var anchor := AnchorOf(s.rows[wid].body);
    var n := s.(rows := DeletedAndReleased(s.rows, Worker(w), wid, Global, anchor, now));
    var rid := Request(s.rows[wid]);
    assert RowOk(s.rows, s.used, wid);
    assert AnchorAgrees(s.rows, wid);
    if rid in s.resubmits {
      if anchor in s.rows {
        assert WaitingRow(n.rows, rid, anchor);
      } else {
        UnanchoredIsNotOnDisk(s.rows, s.used, wid);
        if rid !in s.decided {
          var t :| t in s.tasks && IsGap(s.tasks[t], rid);
          assert IsGap(n.tasks[t], rid);
        }
      }
    }
    AllButOne(s, n, rid);
  }

  /** Rows of one request deleted while a gap task for it starts. */
  lemma GapAccounts(s: State, n: State, rid: RequestId, t: TaskId)
    requires RowsOk(s.rows, s.used) && AllAccounted(s)
    requires n.resubmits == s.resubmits && n.decided == s.decided
    requires forall id :: id in s.rows && Request(s.rows[id]) != rid ==> id in n.rows && n.rows[id] == s.rows[id]
    requires t in n.tasks && IsGap(n.tasks[t], rid)
    requires forall u :: u in s.tasks && (s.tasks[u].CancelSettle? || s.tasks[u].Resubmit?) ==> u in n.tasks && n.tasks[u] == s.tasks[u]
    ensures AllAccounted(n)
  {
    AllButOne(s, n, rid);
  }

  /** An anchor deleted with its worker row is the same request's. */
  lemma BothDeletedAreOneRequest(rows: Rows, used: set<MsgId>, wid: MsgId, w: WorkerId)
    requires RowsOk(rows, used) && On(rows, Worker(w), wid)
    ensures var rest := BothDeleted(rows, Worker(w), wid, Global, AnchorOf(rows[wid].body));
            forall id :: id in rows && Request(rows[id]) != Request(rows[wid]) ==> id in rest && rest[id] == rows[id]
  {
    assert RowOk(rows, used, wid);
    assert AnchorAgrees(rows, wid);
  }

  lemma LoadFailedAccounts(s: State, t: TaskId, error: string)
    requires RowsOk(s.rows, s.used) && AllAccounted(s) && Enabled(s, DoLoadFailed(t, error)) && TaskOk(s, s.tasks[t])
    ensures AllAccounted(LoadFailed(s, t, error))
  {
    var n := LoadFailed(s, t, error);
    var d := s.tasks[t];
    if RetryLeft(s, d.env) {
      if d.wid in s.rows { BothDeletedAreOneRequest(s.rows, s.used, d.wid, d.w); }
      GapAccounts(s, n, d.env.requestID, t);
    } else {
      NothingMoved(s, n);
    }
  }

  lemma DrainAccounts(s: State, wid: MsgId, w: WorkerId, includeLeased: bool, t: TaskId, now: int)
    requires RowsOk(s.rows, s.used) && AllAccounted(s) && Enabled(s, DoDrain(wid, w, includeLeased, t, now))
    ensures AllAccounted(Drain(s, wid, w, includeLeased, t, now))
  {
    var row := s.rows[wid];
    var rid, anchor := Request(row), AnchorOf(row.body);
    var n := Drain(s, wid, w, includeLeased, t, now);
    match DrainDecision(s, row, includeLeased, now)
    case Leave =>
    case Finish(error) =>
      NothingMoved(s, s.(tasks := s.tasks[t := Settle(rid, Fault(error), RowsOf(w, wid, anchor), false, false)]));
    case Discard => NothingMoved(s, s.(tasks := s.tasks[t := Drop(rid, RowsOf(w, wid, anchor))]));
    case HandBack => HandBackAccounts(s, wid, w, now);
    case Retry =>
      BothDeletedAreOneRequest(s.rows, s.used, wid, w);
      GapAccounts(s, s.(rows := BothDeleted(s.rows, Worker(w), wid, Global, anchor),
                        tasks := s.tasks[t := Resubmit(Retried(row.body.env), true)]), rid, t);
  }

  lemma CancelQueuedAccounts(s: State, id: MsgId, q: QueueName, t: TaskId, now: int)
    requires RowsOk(s.rows, s.used) && AllAccounted(s) && Enabled(s, DoCancelQueued(id, q, t, now))
    ensures AllAccounted(CancelQueued(s, id, q, t))
  {
    var n := CancelQueued(s, id, q, t);
    assert RowOk(s.rows, s.used, id);
    if q.Worker? { BothDeletedAreOneRequest(s.rows, s.used, id, q.id); }
    GapAccounts(s, n, Request(s.rows[id]), t);
  }

  // --- Finishing ---

  lemma SettleAccounts(s: State, t: TaskId, id: MsgId, now: int)
    requires RowsOk(s.rows, s.used) && AllAccounted(s) && t in s.tasks && (s.tasks[t].Settle? || s.tasks[t].Announce?)
    ensures AllAccounted(Advance(s, t, id, now))
  {
    NothingMoved(s, Advance(s, t, id, now));
  }

  lemma DropAccounts(s: State, t: TaskId, id: MsgId, now: int)
    requires RowsOk(s.rows, s.used) && AllAccounted(s) && t in s.tasks && s.tasks[t].Drop? && TaskOk(s, s.tasks[t])
    ensures AllAccounted(Advance(s, t, id, now))
  {
    AllButOne(s, Advance(s, t, id, now), s.tasks[t].rid);
  }

  lemma CancelSettleAccounts(s: State, t: TaskId, id: MsgId, now: int)
    requires Inv(s) && AllAccounted(s) && t in s.tasks && s.tasks[t].CancelSettle?
    ensures AllAccounted(Advance(s, t, id, now))
  {
    assert TaskOk(s, s.tasks[t]);
    DecideKeepsHistory(s, s.tasks[t].rid, Fault(CANCELLED), now);
    AllButOne(s, Advance(s, t, id, now), s.tasks[t].rid);
  }

  lemma ResubmitAccounts(s: State, t: TaskId, id: MsgId, now: int)
    requires RowsOk(s.rows, s.used) && AllAccounted(s) && t in s.tasks && s.tasks[t].Resubmit? && IsFresh(s, id)
    requires TaskOk(s, s.tasks[t])
    ensures AllAccounted(Advance(s, t, id, now))
  {
    var n := Advance(s, t, id, now);
    FreshIdIsNoRow(s, id);
    assert WaitingRow(n.rows, s.tasks[t].env.requestID, id);
    AllButOne(s, n, s.tasks[t].env.requestID);
  }

  lemma AdvanceAccounts(s: State, t: TaskId, id: MsgId, now: int)
    requires Inv(s) && AllAccounted(s) && Enabled(s, DoAdvance(t, id, now))
    ensures AllAccounted(Advance(s, t, id, now))
  {
    assert TaskOk(s, s.tasks[t]);
    match s.tasks[t]
    case Settle(_, _, _, _, _) => SettleAccounts(s, t, id, now);
    case Announce(_, _, _) => SettleAccounts(s, t, id, now);
    case Drop(_, _) => DropAccounts(s, t, id, now);
    case CancelSettle(_) => CancelSettleAccounts(s, t, id, now);
    case Resubmit(_, _) => ResubmitAccounts(s, t, id, now);
  }

  // --- Crashes ---

  /** No undecided job exists only in the memory of its own cancel or retry. */
  ghost predicate CrashIsSafe(s: State) {
    forall t, rid :: t in s.tasks && rid in s.resubmits && IsGap(s.tasks[t], rid) ==> rid in s.decided || OnDisk(s.rows, rid)
  }

  /** A crash loses no job exactly when it does not fall between a job's row deletion and the write that follows. */
  lemma CrashLosesExactlyTheGaps(s: State)
    requires AllAccounted(s)
    ensures AllAccounted(Crash(s)) <==> CrashIsSafe(s)
  {
    var n := Crash(s);
    if CrashIsSafe(s) {
      forall rid | rid in n.resubmits
        ensures Accounted(n, rid)
      {
        assert Accounted(s, rid);
        if InGap(s, rid) {
          var t :| t in s.tasks && IsGap(s.tasks[t], rid);
        }
      }
    }
    if AllAccounted(n) {
      forall t, rid | t in s.tasks && rid in s.resubmits && IsGap(s.tasks[t], rid)
        ensures rid in s.decided || OnDisk(s.rows, rid)
      {
        assert Accounted(n, rid);
      }
    }
  }

  // --- Every step, every run ---

  lemma QuietStepAccounts(s: State, step: Step)
    requires RowsOk(s.rows, s.used) && AllAccounted(s) && Enabled(s, step)
    requires || step.DoFailUnbenchable? || step.DoCancelRunning? || step.DoReapBuffer? || step.DoSweepBuffer?
             || step.DoCleanup? || step.DoExtend? || step.DoReap?
    ensures AllAccounted(Next(s, step))
  {
    NothingMoved(s, Next(s, step));
  }

  lemma QuietDispatchAccounts(s: State, step: Step)
    requires RowsOk(s.rows, s.used) && AllAccounted(s) && Enabled(s, step)
    requires step.DoBounce? || step.DoAbort? || step.DoStart? || step.DoAssignFailed? || step.DoStreamEnd?
    ensures AllAccounted(Next(s, step))
  {
    NothingMoved(s, Next(s, step));
  }

  lemma LeaseAccounts(s: State, wid: MsgId, w: WorkerId, t: TaskId, duration: int, now: int)
    requires RowsOk(s.rows, s.used) && AllAccounted(s) && Enabled(s, DoLease(wid, w, t, duration, now))
    ensures AllAccounted(Lease(s, wid, w, t, duration, now))
  {
    assert RowOk(s.rows, s.used, wid);
    NothingMoved(s, Lease(s, wid, w, t, duration, now));
  }

  lemma ReestimateAccounts(s: State, wid: MsgId, w: WorkerId, queuedBits: Bits64)
    requires RowsOk(s.rows, s.used) && AllAccounted(s)
    ensures AllAccounted(Reestimate(s, wid, w, queuedBits))
  {
    NothingMoved(s, Reestimate(s, wid, w, queuedBits));
  }

  lemma PlacementStepAccounts(s: State, step: Step)
    requires Inv(s) && AllAccounted(s) && Enabled(s, step) && IsPlacementStep(step)
    ensures AllAccounted(Next(s, step))
  {
    if step.DoDrain? || step.DoEvict? || step.DoCancelQueued? {
      UnplacementStepAccounts(s, step);
    } else {
      match step
      case DoSubmit(env, id, now) => SubmitAccounts(s, env, id, now);
      case DoPlace(gid, w, queuedBits, id, duration, now) => PlaceAccounts(s, gid, w, queuedBits, id, duration, now);
      case DoFailUnbenchable(_, _, _, _) => QuietStepAccounts(s, step);
      case DoSteal(wid, src, dst, id, now) => StealAccounts(s, wid, src, dst, id, now);
    }
  }

  lemma UnplacementStepAccounts(s: State, step: Step)
    requires Inv(s) && AllAccounted(s) && Enabled(s, step) && (step.DoDrain? || step.DoEvict? || step.DoCancelQueued?)
    ensures AllAccounted(Next(s, step))
  {
    match step
    case DoDrain(wid, w, includeLeased, t, now) => DrainAccounts(s, wid, w, includeLeased, t, now);
    case DoEvict(wid, w, now) => HandBackAccounts(s, wid, w, now);
    case DoCancelQueued(id, q, t, now) => CancelQueuedAccounts(s, id, q, t, now);
  }

  lemma DispatchStepAccounts(s: State, step: Step)
    requires Inv(s) && AllAccounted(s) && Enabled(s, step) && IsDispatchStep(step)
    ensures AllAccounted(Next(s, step))
  {
    if step.DoLease? {
      LeaseAccounts(s, step.wid, step.w, step.t, step.duration, step.now);
    } else if step.DoLoadFailed? {
      assert TaskOk(s, s.tasks[step.t]);
      LoadFailedAccounts(s, step.t, step.error);
    } else if step.DoAdvance? {
      AdvanceAccounts(s, step.t, step.id, step.now);
    } else {
      QuietDispatchAccounts(s, step);
    }
  }

  lemma StepAccounts(s: State, step: Step)
    requires Inv(s) && AllAccounted(s) && Enabled(s, step)
    requires step.DoCrash? ==> CrashIsSafe(s)
    ensures AllAccounted(Next(s, step))
  {
    if IsDispatchStep(step) {
      DispatchStepAccounts(s, step);
    } else if IsPlacementStep(step) {
      PlacementStepAccounts(s, step);
    } else if step.DoReestimate? {
      ReestimateAccounts(s, step.wid, step.w, step.queuedBits);
    } else if step.DoCrash? {
      CrashLosesExactlyTheGaps(s);
    } else {
      QuietStepAccounts(s, step);
    }
  }

  /** No crash of the run falls into a gap. */
  ghost predicate CrashesAreSafe(s: State, steps: seq<Step>)
    requires ValidRun(s, steps)
    decreases |steps|
  {
    steps == [] || ((steps[0].DoCrash? ==> CrashIsSafe(s)) && CrashesAreSafe(Next(s, steps[0]), steps[1..]))
  }

  lemma {:induction false} RunAccounts(s: State, steps: seq<Step>)
    requires Inv(s) && AllAccounted(s) && ValidRun(s, steps) && NoDoubling(s, steps) && CrashesAreSafe(s, steps)
    ensures AllAccounted(Exec(s, steps))
    decreases |steps|
  {
    if steps != [] {
      StepKeeps(s, steps[0]);
      StepAccounts(s, steps[0]);
      RunAccounts(Next(s, steps[0]), steps[1..]);
    }
  }

  /**
   Over every run whose crashes miss the gaps and in which no stale retry doubles a job, each submitted request has been
   answered, or is on disk, or is between two steps of its own cancel or retry;
   and what is on disk of it is one placement.
   */
  lemma NoJobIsLost(loadAttempts: nat, steps: seq<Step>, rid: RequestId)
    requires ValidRun(Init(loadAttempts), steps)
    requires NoDoubling(Init(loadAttempts), steps) && CrashesAreSafe(Init(loadAttempts), steps)
    requires rid in Exec(Init(loadAttempts), steps).resubmits
    ensures var s := Exec(Init(loadAttempts), steps);
            && (rid in s.decided || OnDisk(s.rows, rid) || InGap(s, rid))
            && (rid in s.decided && rid in s.results ==> IsTerminal(s.results[rid].status))
            && (forall a, b :: WaitingRow(s.rows, rid, a) && AnchoredRow(s.rows, rid, b) ==> false)
            && (forall a, b :: WaitingRow(s.rows, rid, a) && WaitingRow(s.rows, rid, b) ==> a == b)
            && (forall a, b :: AnchoredRow(s.rows, rid, a) && AnchoredRow(s.rows, rid, b) ==> a == b)
  {
    InitHolds(loadAttempts);
    RunKeeps(Init(loadAttempts), steps);
    RunAccounts(Init(loadAttempts), steps);
    var s := Exec(Init(loadAttempts), steps);
    assert ResultOk(s, rid) && Accounted(s, rid);
    OnePlacementOnDisk(s.rows, s.used, rid);
  }

  /** What is on disk of a request is one placement. */
  lemma OnePlacementOnDisk(rows: Rows, used: set<MsgId>, rid: RequestId)
    requires RowsOk(rows, used)
    ensures forall a, b :: WaitingRow(rows, rid, a) && AnchoredRow(rows, rid, b) ==> false
    ensures forall a, b :: WaitingRow(rows, rid, a) && WaitingRow(rows, rid, b) ==> a == b
    ensures forall a, b :: AnchoredRow(rows, rid, a) && AnchoredRow(rows, rid, b) ==> a == b
  {
    forall a, b | WaitingRow(rows, rid, a) && AnchoredRow(rows, rid, b)
      ensures false
    {
      WaitingRowIsUnnamed(rows, used, a, b);
    }
    forall a, b | a in rows && b in rows
      ensures PairOk(rows, a, b)
    {
    }
  }
}
