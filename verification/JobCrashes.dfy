/**
 What a crash can lose, sharply: on runs in which anchor leases outlast the wait, a
 request between the two steps of its own cancel or retry has nothing on disk, so a
 crash loses exactly those of them that are not answered yet.
 */
module JobCrashes {
  import opened EnvelopeCodec
  import opened JobAccounting
  import opened JobExamples
  import opened JobHistory
  import opened JobInvariants
  import opened JobProtocol
  import opened JobSafety
  import opened LeaseQueue
  import opened ResultStore

  /** Nothing of the request is on disk, and nothing is about to put it there. */
  ghost predicate OffDisk(s: State, rid: RequestId) {
    && NoRowsOf(s.rows, rid)
    && (forall t :: t in s.tasks && s.tasks[t].Resubmit? ==> s.tasks[t].env.requestID != rid)
  }

  /** Every request whose cancel is being stored is off the disk. */
  ghost predicate CancelsAlone(s: State) {
    forall t :: t in s.tasks && s.tasks[t].CancelSettle? ==> OffDisk(s, s.tasks[t].rid)
  }

  /** No anchor is cancelled as if it were waiting: its lease has not run out. */
  predicate AnchorHeld(s: State, step: Step) {
    step.DoCancelQueued? && step.q.Global? && step.id in s.rows ==> s.rows[step.id].received == 0
  }

  ghost predicate AnchorsOutlast(s: State, steps: seq<Step>)
    requires ValidRun(s, steps)
    decreases |steps|
  {
    steps == [] || (AnchorHeld(s, steps[0]) && AnchorsOutlast(Next(s, steps[0]), steps[1..]))
  }

  // --- What is off the disk stays off ---

  /** Rows and resubmissions of the request are old ones. */
  ghost predicate Spares(s: State, n: State, rid: RequestId) {
    && (forall id :: id in n.rows && Request(n.rows[id]) == rid ==> id in s.rows && Request(s.rows[id]) == rid)
    && (forall t :: t in n.tasks && n.tasks[t].Resubmit? && n.tasks[t].env.requestID == rid ==>
                      t in s.tasks && s.tasks[t] == n.tasks[t])
  }

  lemma SubmitSpares(s: State, env: Envelope, id: MsgId, now: int, rid: RequestId)
    requires rid in s.resubmits && Enabled(s, DoSubmit(env, id, now))
    ensures Spares(s, Submit(s, env, id, now), rid)
  {
  }

  lemma PlaceSpares(s: State, gid: MsgId, w: WorkerId, queuedBits: Bits64, id: MsgId, duration: int, now: int, rid: RequestId)
    requires RowsOk(s.rows, s.used) && OffDisk(s, rid) && Enabled(s, DoPlace(gid, w, queuedBits, id, duration, now))
    ensures Spares(s, Place(s, gid, w, queuedBits, id, duration, now), rid)
  {
    assert RowOk(s.rows, s.used, gid);
    if Leasable(s.rows, Global, gid, now) {
      PlacedRows(s.rows, s.used, gid, w, queuedBits, id, duration, now);
    }
  }

  lemma StealSpares(s: State, wid: MsgId, src: WorkerId, dst: WorkerId, id: MsgId, now: int, rid: RequestId)
    requires OffDisk(s, rid) && Enabled(s, DoSteal(wid, src, dst, id, now)) && RowOk(s.rows, s.used, wid)
    ensures Spares(s, Steal(s, wid, src, dst, id, now), rid)
  {
  }

  /** Rows only go, and a task is added that is no resubmission of the request. */
  lemma ThinningSpares(s: State, rows: Rows, t: TaskId, task: Task, rid: RequestId)
    requires Thins(s.rows, rows) && (task.Resubmit? ==> task.env.requestID != rid)
    ensures Spares(s, s.(rows := rows, tasks := s.tasks[t := task]), rid) && Spares(s, s.(rows := rows), rid)
  {
  }

  lemma HandBackSpares(s: State, step: Step, rid: RequestId)
    requires Enabled(s, step) && (step.DoFailUnbenchable? || step.DoEvict? || step.DoCancelQueued?)
    ensures Spares(s, Next(s, step), rid)
  {
    var n := Next(s, step);
    match step
    case DoFailUnbenchable(gid, error, t, now) => ThinningSpares(s, s.rows, t, n.tasks[t], rid);
    case DoEvict(wid, w, now) =>
      DroppedRowsThin(s.rows, Worker(w), wid, AnchorOf(s.rows[wid].body), now);
      ThinningSpares(s, n.rows, 0, CancelSettle(rid), rid);
    case DoCancelQueued(id, q, t, now) =>
      DroppedRowsThin(s.rows, q, id, AnchorOf(s.rows[id].body), now);
      ThinningSpares(s, n.rows, t, CancelSettle(Request(s.rows[id])), rid);
  }

  lemma DrainSpares(s: State, wid: MsgId, w: WorkerId, includeLeased: bool, t: TaskId, now: int, rid: RequestId)
    requires OffDisk(s, rid) && Enabled(s, DoDrain(wid, w, includeLeased, t, now))
    ensures Spares(s, Drain(s, wid, w, includeLeased, t, now), rid)
  {
    var n, row := Drain(s, wid, w, includeLeased, t, now), s.rows[wid];
    var action := DrainDecision(s, row, includeLeased, now);
    assert Request(row) != rid;
    DroppedRowsThin(s.rows, Worker(w), wid, AnchorOf(row.body), now);
    if action.Finish? || action.Discard? || action.Retry? {
      ThinningSpares(s, n.rows, t, n.tasks[t], rid);
    } else {
      ThinningSpares(s, n.rows, t, CancelSettle(rid), rid);
    }
  }

  lemma LeaseSpares(s: State, wid: MsgId, w: WorkerId, t: TaskId, duration: int, now: int, rid: RequestId)
    requires Enabled(s, DoLease(wid, w, t, duration, now))
    ensures Spares(s, Lease(s, wid, w, t, duration, now), rid)
  {
  }

  lemma LoadFailedSpares(s: State, t: TaskId, error: string, rid: RequestId)
    requires OffDisk(s, rid) && Enabled(s, DoLoadFailed(t, error)) && TaskOk(s, s.tasks[t]) && !Stale(s, DoLoadFailed(t, error))
    ensures Spares(s, LoadFailed(s, t, error), rid)
  {
  }

  lemma DispatchSpares(s: State, step: Step, rid: RequestId)
    requires Enabled(s, step)
    requires step.DoBounce? || step.DoAbort? || step.DoStart? || step.DoAssignFailed? || step.DoStreamEnd?
    ensures Spares(s, Next(s, step), rid)
  {
  }

  lemma AdvanceSpares(s: State, t: TaskId, id: MsgId, now: int, rid: RequestId)
    requires OffDisk(s, rid) && Enabled(s, DoAdvance(t, id, now))
    ensures Spares(s, Advance(s, t, id, now), rid)
  {
    if s.tasks[t].Resubmit? {
      ResubmitSpares(s, t, id, now, rid);
    } else {
      SettleSpares(s, t, id, now, rid);
    }
  }

  lemma ResubmitSpares(s: State, t: TaskId, id: MsgId, now: int, rid: RequestId)
    requires OffDisk(s, rid) && t in s.tasks && s.tasks[t].Resubmit?
    ensures Spares(s, Advance(s, t, id, now), rid)
  {
  }

  lemma SettleSpares(s: State, t: TaskId, id: MsgId, now: int, rid: RequestId)
    requires Enabled(s, DoAdvance(t, id, now)) && !s.tasks[t].Resubmit?
    ensures Spares(s, Advance(s, t, id, now), rid)
  {
  }

  lemma OtherSpares(s: State, step: Step, rid: RequestId)
    requires Enabled(s, step) && !IsDispatchStep(step) && !IsPlacementStep(step)
    ensures Spares(s, Next(s, step), rid)
  {
  }

  lemma StepSpares(s: State, step: Step, rid: RequestId)
    requires Inv(s) && OffDisk(s, rid) && rid in s.resubmits && Enabled(s, step) && !Stale(s, step)
    ensures Spares(s, Next(s, step), rid)
  {
    if IsPlacementStep(step) {
      if step.DoSubmit? {
        SubmitSpares(s, step.env, step.id, step.now, rid);
      } else if step.DoPlace? {
        PlaceSpares(s, step.gid, step.w, step.queuedBits, step.id, step.duration, step.now, rid);
      } else if step.DoSteal? {
        assert RowOk(s.rows, s.used, step.wid);
        StealSpares(s, step.wid, step.src, step.dst, step.id, step.now, rid);
      } else if step.DoDrain? {
        DrainSpares(s, step.wid, step.w, step.includeLeased, step.t, step.now, rid);
      } else {
        HandBackSpares(s, step, rid);
      }
    } else if IsDispatchStep(step) {
      if step.DoLease? {
        LeaseSpares(s, step.wid, step.w, step.t, step.duration, step.now, rid);
      } else if step.DoLoadFailed? {
        assert TaskOk(s, s.tasks[step.t]);
        LoadFailedSpares(s, step.t, step.error, rid);
      } else if step.DoAdvance? {
        AdvanceSpares(s, step.t, step.id, step.now, rid);
      } else {
        DispatchSpares(s, step, rid);
      }
    } else {
      OtherSpares(s, step, rid);
    }
  }

  // --- Cancels being stored ---

  /** Cancelling a queued row leaves its request nothing on disk, unless it was an anchor. */
  lemma CancelTakesEverything(s: State, id: MsgId, q: QueueName, t: TaskId, now: int)
    requires Inv(s) && Enabled(s, DoCancelQueued(id, q, t, now)) && AnchorHeld(s, DoCancelQueued(id, q, t, now))
    ensures OffDisk(CancelQueued(s, id, q, t), Request(s.rows[id]))
  {
    var rid, n := Request(s.rows[id]), CancelQueued(s, id, q, t);
    assert RowOk(s.rows, s.used, id);
    RetryOfAPresentRowIsDistinct(s, id);
    if q.Worker? {
      BothDeletedLeavesNone(s.rows, s.used, id, q.id);
    } else {
      forall x | x in n.rows
        ensures Request(n.rows[x]) != rid
      {
        assert PairOk(s.rows, id, x);
        if IsWorker(s.rows, x) { WaitingRowIsUnnamed(s.rows, s.used, id, x); }
      }
    }
  }

  lemma OnlyCancelsStartCancels(s: State, step: Step, t: TaskId)
    requires Enabled(s, step) && t in Next(s, step).tasks && Next(s, step).tasks[t].CancelSettle?
    ensures (t in s.tasks && s.tasks[t] == Next(s, step).tasks[t])
            || (step.DoCancelQueued? && Next(s, step).tasks[t].rid == Request(s.rows[step.id]))
  {
    if IsDispatchStep(step) {
      DispatchStartsNoCancel(s, step, t);
    } else if step.DoDrain? {
      DrainStartsNoCancel(s, step.wid, step.w, step.includeLeased, step.t, step.now, t);
    }
  }

  lemma DispatchStartsNoCancel(s: State, step: Step, t: TaskId)
    requires Enabled(s, step) && IsDispatchStep(step) && t in Next(s, step).tasks && Next(s, step).tasks[t].CancelSettle?
    ensures t in s.tasks && s.tasks[t] == Next(s, step).tasks[t]
  {
    if step.DoLease? || step.DoBounce? || step.DoLoadFailed? || step.DoAbort? {
      LoadStartsNoCancel(s, step, t);
    } else {
      StreamStartsNoCancel(s, step, t);
    }
  }

  lemma LoadStartsNoCancel(s: State, step: Step, t: TaskId)
    requires Enabled(s, step) && t in Next(s, step).tasks && Next(s, step).tasks[t].CancelSettle?
    requires step.DoLease? || step.DoBounce? || step.DoLoadFailed? || step.DoAbort?
    ensures t in s.tasks && s.tasks[t] == Next(s, step).tasks[t]
  {
  }

  lemma StreamStartsNoCancel(s: State, step: Step, t: TaskId)
    requires Enabled(s, step) && t in Next(s, step).tasks && Next(s, step).tasks[t].CancelSettle?
    requires step.DoStart? || step.DoAssignFailed? || step.DoStreamEnd? || step.DoAdvance?
    ensures t in s.tasks && s.tasks[t] == Next(s, step).tasks[t]
  {
  }

  lemma DrainStartsNoCancel(s: State, wid: MsgId, w: WorkerId, includeLeased: bool, u: TaskId, now: int, t: TaskId)
    requires Enabled(s, DoDrain(wid, w, includeLeased, u, now))
    requires var n := Drain(s, wid, w, includeLeased, u, now); t in n.tasks && n.tasks[t].CancelSettle?
    ensures t in s.tasks && s.tasks[t] == Drain(s, wid, w, includeLeased, u, now).tasks[t]
  {
  }

  lemma StepKeepsCancelsAlone(s: State, step: Step)
    requires Inv(s) && CancelsAlone(s) && Enabled(s, step) && !Stale(s, step) && AnchorHeld(s, step)
    ensures CancelsAlone(Next(s, step))
  {
    var n := Next(s, step);
    forall t | t in n.tasks && n.tasks[t].CancelSettle?
      ensures OffDisk(n, n.tasks[t].rid)
    {
      OnlyCancelsStartCancels(s, step, t);
      if t in s.tasks && s.tasks[t] == n.tasks[t] {
        assert TaskOk(s, s.tasks[t]);
        StepSpares(s, step, n.tasks[t].rid);
      } else {
        CancelTakesEverything(s, step.id, step.q, step.t, step.now);
      }
    }
  }

  lemma {:induction false} RunKeepsCancelsAlone(s: State, steps: seq<Step>)
    requires Inv(s) && CancelsAlone(s) && ValidRun(s, steps) && NoStaleRetry(s, steps) && AnchorsOutlast(s, steps)
    ensures Inv(Exec(s, steps)) && CancelsAlone(Exec(s, steps))
    decreases |steps|
  {
    if steps != [] {
      StepKeeps(s, steps[0]);
      StepKeepsCancelsAlone(s, steps[0]);
      RunKeepsCancelsAlone(Next(s, steps[0]), steps[1..]);
    }
  }

  // --- Crashes ---

  /** Every request between the two steps of its own cancel or retry is answered. */
  predicate GapsAnswered(s: State) {
    && (forall t :: t in s.tasks && s.tasks[t].CancelSettle? ==> s.tasks[t].rid in s.decided)
    && (forall t :: t in s.tasks && s.tasks[t].Resubmit? ==> s.tasks[t].env.requestID in s.decided)
  }

  lemma NoRowsIsNotOnDisk(rows: Rows, rid: RequestId)
    requires NoRowsOf(rows, rid)
    ensures !OnDisk(rows, rid)
  {
  }

  lemma CrashLosesTheUnanswered(s: State)
    requires Inv(s) && AllAccounted(s) && CancelsAlone(s)
    ensures AllAccounted(Crash(s)) <==> GapsAnswered(s)
  {
    CrashLosesExactlyTheGaps(s);
    forall t | t in s.tasks && (s.tasks[t].CancelSettle? || s.tasks[t].Resubmit?)
      ensures var rid := if s.tasks[t].CancelSettle? then s.tasks[t].rid else s.tasks[t].env.requestID;
              IsGap(s.tasks[t], rid) && rid in s.resubmits && !OnDisk(s.rows, rid)
    {
      assert TaskOk(s, s.tasks[t]);
      NoRowsIsNotOnDisk(s.rows, if s.tasks[t].CancelSettle? then s.tasks[t].rid else s.tasks[t].env.requestID);
    }
  }

  /**
   On every run whose anchors outlast the wait, without stale retries and with its earlier
   crashes safe, one more crash loses a job exactly when some cancel or retry stands between
   its two steps with its request unanswered.
   */
  lemma CrashLosesExactlyTheUnanswered(loadAttempts: nat, steps: seq<Step>)
    requires ValidRun(Init(loadAttempts), steps) && NoStaleRetry(Init(loadAttempts), steps)
    requires AnchorsOutlast(Init(loadAttempts), steps) && CrashesAreSafe(Init(loadAttempts), steps)
    ensures var s := Exec(Init(loadAttempts), steps); AllAccounted(Crash(s)) <==> GapsAnswered(s)
  {
    InitHolds(loadAttempts);
    NoStaleRetryNeverDoubles(Init(loadAttempts), steps);
    RunKeepsCancelsAlone(Init(loadAttempts), steps);
    RunAccounts(Init(loadAttempts), steps);
    CrashLosesTheUnanswered(Exec(Init(loadAttempts), steps));
  }

  // --- What it looks like ---

  /** A submitted job is cancelled, and the process dies before the cancelled result is stored: nothing of it is left. */
  lemma LostJobIsReachable(loadAttempts: nat)
    ensures var steps := [DoSubmit(ENV, G1, 0), DoCancelQueued(G1, Global, 0, 0), DoCrash];
            && ValidRun(Init(loadAttempts), steps)
            && var s := Exec(Init(loadAttempts), steps);
               JOB in s.resubmits && JOB !in s.decided && s.rows == map[] && s.tasks == map[]
  {
    var s0, a, b := Init(loadAttempts), DoSubmit(ENV, G1, 0), DoCancelQueued(G1, Global, 0, 0);
    assert Next(Next(s0, a), b).rows == map[];
    RunOfThree(s0, a, b, DoCrash);
  }

  /** An operator's cancel of a global row looks at its timeout only: an anchor whose lease ran out goes, and its worker row stays. */
  lemma CancelledAnchorLeavesItsRow(loadAttempts: nat)
    ensures var steps := [DoSubmit(ENV, G1, 0), DoPlace(G1, HOST, 0, W1, 10, 0), DoCancelQueued(G1, Global, 0, 10)];
            && ValidRun(Init(loadAttempts), steps)
            && var s := Exec(Init(loadAttempts), steps);
               W1 in s.rows && s.tasks == map[0 := CancelSettle(JOB)] && !CancelsAlone(s)
  {
    var s0, a, b := Init(loadAttempts), DoSubmit(ENV, G1, 0), DoPlace(G1, HOST, 0, W1, 10, 0);
    var c := DoCancelQueued(G1, Global, 0, 10);
    var s2 := Placed(loadAttempts);
    assert Next(Next(s0, a), b) == s2;
    RunOfThree(s0, a, b, c);
    var s3 := Next(s2, c);
    assert W1 in s3.rows && Request(s3.rows[W1]) == JOB && !OffDisk(s3, s3.tasks[0].rid);
  }
}
