/**
 Results against published frames, on every run there is: doubled jobs, stale
 retries and arbitrary clock readings included.
 */
module JobHistory {
  import opened EnvelopeCodec
  import opened JobInvariants
  import opened JobProtocol
  import opened JobSafety
  import opened LeaseQueue
  import opened ResultStore

  /** A task speaks of a submitted request, and of an answered one once the result is stored. */
  predicate Known(s: State, task: Task) {
    match task
    case Loading(_, _, env) => env.requestID in s.resubmits
    case Streaming(_, _, _, rid) => rid in s.resubmits
    case Settle(rid, _, _, _, _) => rid in s.resubmits
    case Announce(rid, _, _) => rid in s.decided
    case Drop(rid, _) => rid in s.decided
    case CancelSettle(rid) => rid in s.resubmits
    case Resubmit(env, _) => env.requestID in s.resubmits
  }

  ghost predicate HistoryInv(s: State) {
    && HistoryOk(s)
    && [] !in s.resubmits
    && (forall t :: t in s.tasks ==> Known(s, s.tasks[t]))
  }

  /** What a step that writes no result has to show. */
  ghost predicate Follows(s: State, n: State) {
    && n.results == s.results && n.decided == s.decided && n.published == s.published && n.resubmits.Keys == s.resubmits.Keys
    && n.inflight.Keys <= s.resubmits.Keys
    && (forall id :: id in n.rows ==> Request(n.rows[id]) in s.resubmits)
    && (forall t :: t in n.tasks ==> (t in s.tasks && n.tasks[t] == s.tasks[t]) || Known(s, n.tasks[t]))
  }

  lemma FollowingKeeps(s: State, n: State)
    requires HistoryInv(s) && Follows(s, n)
    ensures HistoryInv(n)
  {
    forall rid | rid in n.resubmits
      ensures ResultOk(n, rid)
    {
      assert ResultOk(s, rid);
    }
  }

  lemma PlacementFollows(s: State, step: Step)
    requires HistoryInv(s) && Enabled(s, step) && (step.DoPlace? || step.DoSteal? || step.DoFailUnbenchable? || step.DoEvict?)
    ensures Follows(s, Next(s, step))
  {
  }

  lemma CancelQueuedFollows(s: State, id: MsgId, q: QueueName, t: TaskId, now: int)
    requires HistoryInv(s) && Enabled(s, DoCancelQueued(id, q, t, now))
    ensures Follows(s, CancelQueued(s, id, q, t))
  {
  }

  /** Rows that stay, under the requests they had. */
  ghost predicate Thins(rows: Rows, rest: Rows) {
    forall id :: id in rest ==> id in rows && Request(rest[id]) == Request(rows[id])
  }

  lemma DroppedRowsThin(rows: Rows, q: QueueName, id: MsgId, anchor: MsgId, now: int)
    ensures Thins(rows, BothDeleted(rows, q, id, Global, anchor))
    ensures Thins(rows, DeletedAndReleased(rows, q, id, Global, anchor, now))
  {
  }

  lemma TaskAndRowsFollow(s: State, rows: Rows, t: TaskId, task: Task)
    requires HistoryInv(s) && Thins(s.rows, rows) && Known(s, task)
    ensures Follows(s, s.(rows := rows, tasks := s.tasks[t := task]))
    ensures Follows(s, s.(rows := rows))
  {
  }

  lemma DrainFollows(s: State, wid: MsgId, w: WorkerId, includeLeased: bool, t: TaskId, now: int)
    requires HistoryInv(s) && Enabled(s, DoDrain(wid, w, includeLeased, t, now))
    ensures Follows(s, Drain(s, wid, w, includeLeased, t, now))
  {
    var n, row := Drain(s, wid, w, includeLeased, t, now), s.rows[wid];
    var action := DrainDecision(s, row, includeLeased, now);
    assert Request(row) in s.resubmits && ResultOk(s, Request(row));
    DroppedRowsThin(s.rows, Worker(w), wid, AnchorOf(row.body), now);
    if action.Finish? || action.Discard? || action.Retry? {
      TaskAndRowsFollow(s, n.rows, t, n.tasks[t]);
    } else {
      TaskAndRowsFollow(s, n.rows, t, CancelSettle(Request(row)));
    }
  }

  lemma LeaseFollows(s: State, wid: MsgId, w: WorkerId, t: TaskId, duration: int, now: int)
    requires HistoryInv(s) && Enabled(s, DoLease(wid, w, t, duration, now))
    ensures Follows(s, Lease(s, wid, w, t, duration, now))
  {
    assert ResultOk(s, Request(s.rows[wid]));
  }

  lemma BounceFollows(s: State, t: TaskId, delay: int, now: int)
    requires HistoryInv(s) && Enabled(s, DoBounce(t, delay, now))
    ensures Follows(s, Bounce(s, t, delay, now))
  {
  }

  lemma LoadFailedFollows(s: State, t: TaskId, error: string)
    requires HistoryInv(s) && Enabled(s, DoLoadFailed(t, error))
    ensures Follows(s, LoadFailed(s, t, error))
  {
    var n, d := LoadFailed(s, t, error), s.tasks[t];
    assert Known(s, d);
    DroppedRowsThin(s.rows, Worker(d.w), d.wid, d.env.globalMsgID, 0);
    TaskAndRowsFollow(s, n.rows, t, n.tasks[t]);
  }

  lemma StreamEndFollows(s: State, t: TaskId, ending: StreamEnding, online: bool)
    requires HistoryInv(s) && Enabled(s, DoStreamEnd(t, ending, online))
    ensures Follows(s, StreamEnd(s, t, ending, online))
  {
    assert Known(s, s.tasks[t]);
  }

  lemma LoadFollows(s: State, step: Step)
    requires HistoryInv(s) && Enabled(s, step) && (step.DoBounce? || step.DoLoadFailed? || step.DoAbort?)
    ensures Follows(s, Next(s, step))
  {
    match step
    case DoBounce(t, delay, now) => BounceFollows(s, t, delay, now);
    case DoLoadFailed(t, error) => LoadFailedFollows(s, t, error);
    case DoAbort(t) =>
      assert Known(s, s.tasks[t]);
      TaskAndRowsFollow(s, s.rows, t, Abort(s, t).tasks[t]);
  }

  lemma StreamFollows(s: State, step: Step)
    requires HistoryInv(s) && Enabled(s, step) && (step.DoAssignFailed? || step.DoStreamEnd?)
    ensures Follows(s, Next(s, step))
  {
    match step
    case DoAssignFailed(t, error) =>
      assert Known(s, s.tasks[t]);
      TaskAndRowsFollow(s, s.rows, t, AssignFailed(s, t, error).tasks[t]);
    case DoStreamEnd(t, ending, online) => StreamEndFollows(s, t, ending, online);
  }

  lemma StartKeepsHistory(s: State, t: TaskId)
    requires HistoryInv(s) && Enabled(s, DoStart(t))
    ensures HistoryInv(Start(s, t))
  {
    var n := Start(s, t);
    assert Known(s, s.tasks[t]);
    forall rid | rid in n.resubmits
      ensures ResultOk(n, rid)
    {
      assert ResultOk(s, rid);
    }
  }

  lemma SubmitKeepsHistory(s: State, env: Envelope, id: MsgId, now: int)
    requires HistoryInv(s) && Enabled(s, DoSubmit(env, id, now))
    ensures HistoryInv(Submit(s, env, id, now))
  {
    var n := Submit(s, env, id, now);
    forall rid | rid in n.resubmits
      ensures ResultOk(n, rid)
    {
      if rid != env.requestID { assert ResultOk(s, rid); }
    }
    forall t | t in n.tasks
      ensures Known(n, n.tasks[t])
    {
      assert Known(s, s.tasks[t]);
    }
  }

  lemma VerdictKeepsHistory(s: State, t: TaskId, id: MsgId, now: int)
    requires HistoryInv(s) && t in s.tasks && (s.tasks[t].Settle? || s.tasks[t].CancelSettle?)
    ensures HistoryInv(Advance(s, t, id, now))
  {
    var n := Advance(s, t, id, now);
    assert Known(s, s.tasks[t]);
    var v := if s.tasks[t].Settle? then s.tasks[t].verdict else Fault(CANCELLED);
    DecideKeepsHistory(s, s.tasks[t].rid, v, now);
    assert HistoryOk(n);
    OthersStayKnown(s, n, t);
  }

  lemma AnnounceKeepsHistory(s: State, t: TaskId, id: MsgId, now: int)
    requires HistoryInv(s) && t in s.tasks && (s.tasks[t].Announce? || s.tasks[t].Drop?)
    ensures HistoryInv(Advance(s, t, id, now))
  {
    var n := Advance(s, t, id, now);
    assert Known(s, s.tasks[t]);
    ResultsStayOk(s, n);
    OthersStayKnown(s, n, t);
  }

  lemma ResubmitKeepsHistory(s: State, t: TaskId, id: MsgId, now: int)
    requires HistoryInv(s) && t in s.tasks && s.tasks[t].Resubmit?
    ensures HistoryInv(Advance(s, t, id, now))
  {
    var n := Advance(s, t, id, now);
    assert Known(s, s.tasks[t]);
    ResultsStayOk(s, n);
    OthersStayKnown(s, n, t);
  }

  lemma AdvanceKeepsHistory(s: State, t: TaskId, id: MsgId, now: int)
    requires HistoryInv(s) && Enabled(s, DoAdvance(t, id, now))
    ensures HistoryInv(Advance(s, t, id, now))
  {
    if s.tasks[t].Settle? || s.tasks[t].CancelSettle? {
      VerdictKeepsHistory(s, t, id, now);
    } else if s.tasks[t].Resubmit? {
      ResubmitKeepsHistory(s, t, id, now);
    } else {
      AnnounceKeepsHistory(s, t, id, now);
    }
  }

  lemma ResultsStayOk(s: State, n: State)
    requires HistoryInv(s) && n.resubmits.Keys == s.resubmits.Keys && n.decided == s.decided
    requires n.results == s.results || exists rid :: n.results == Flipped(s.results, rid, Processing, Pending)
    ensures forall rid :: rid in n.resubmits ==> ResultOk(n, rid)
  {
    forall rid | rid in n.resubmits
      ensures ResultOk(n, rid)
    {
      assert ResultOk(s, rid);
    }
  }

  lemma OthersStayKnown(s: State, n: State, t: TaskId)
    requires HistoryInv(s) && s.resubmits.Keys <= n.resubmits.Keys && s.decided <= n.decided
    requires forall u :: u in n.tasks && u != t ==> u in s.tasks && n.tasks[u] == s.tasks[u]
    requires t in n.tasks ==> Known(n, n.tasks[t])
    ensures forall u :: u in n.tasks ==> Known(n, n.tasks[u])
  {
    forall u | u in n.tasks && u != t
      ensures Known(n, n.tasks[u])
    {
      assert Known(s, s.tasks[u]);
    }
  }

  lemma CleanupKeepsHistory(s: State, cutoff: int)
    requires HistoryInv(s)
    ensures HistoryInv(s.(results := Pruned(s.results, cutoff)))
  {
    var n := s.(results := Pruned(s.results, cutoff));
    forall rid | rid in n.resubmits
      ensures ResultOk(n, rid)
    {
      assert ResultOk(s, rid);
    }
    forall t | t in n.tasks
      ensures Known(n, n.tasks[t])
    {
      assert Known(s, s.tasks[t]);
    }
  }

  lemma QuietFollows(s: State, step: Step)
    requires HistoryInv(s) && Enabled(s, step)
    requires step.DoCancelRunning? || step.DoReapBuffer? || step.DoSweepBuffer? || step.DoCrash?
    ensures Follows(s, Next(s, step))
  {
  }

  lemma RewriteFollows(s: State, step: Step)
    requires HistoryInv(s) && Enabled(s, step) && (step.DoExtend? || step.DoReestimate?)
    ensures Follows(s, Next(s, step))
  {
  }

  lemma ReapFollows(s: State, id: MsgId, q: QueueName, t: TaskId, now: int)
    requires HistoryInv(s) && Enabled(s, DoReap(id, q, t, now))
    ensures Follows(s, Reap(s, id, q, t))
  {
    assert ResultOk(s, Request(s.rows[id]));
    assert Known(s, ReapOf(s, id, q));
  }

  lemma DispatchStepKeepsHistory(s: State, step: Step)
    requires HistoryInv(s) && Enabled(s, step) && IsDispatchStep(step)
    ensures HistoryInv(Next(s, step))
  {
    if step.DoLease? {
      LeaseFollows(s, step.wid, step.w, step.t, step.duration, step.now);
      FollowingKeeps(s, Next(s, step));
    } else if step.DoStart? {
      StartKeepsHistory(s, step.t);
    } else if step.DoAdvance? {
      AdvanceKeepsHistory(s, step.t, step.id, step.now);
    } else {
      if step.DoAssignFailed? || step.DoStreamEnd? {
        StreamFollows(s, step);
      } else {
        LoadFollows(s, step);
      }
      FollowingKeeps(s, Next(s, step));
    }
  }

  lemma PlacementStepKeepsHistory(s: State, step: Step)
    requires HistoryInv(s) && Enabled(s, step) && IsPlacementStep(step)
    ensures HistoryInv(Next(s, step))
  {
    if step.DoSubmit? {
      SubmitKeepsHistory(s, step.env, step.id, step.now);
    } else {
      if step.DoDrain? {
        DrainFollows(s, step.wid, step.w, step.includeLeased, step.t, step.now);
      } else if step.DoCancelQueued? {
        CancelQueuedFollows(s, step.id, step.q, step.t, step.now);
      } else {
        PlacementFollows(s, step);
      }
      FollowingKeeps(s, Next(s, step));
    }
  }

  lemma StepKeepsHistory(s: State, step: Step)
    requires HistoryInv(s) && Enabled(s, step)
    ensures HistoryInv(Next(s, step))
  {
    if IsDispatchStep(step) {
      DispatchStepKeepsHistory(s, step);
    } else if IsPlacementStep(step) {
      PlacementStepKeepsHistory(s, step);
    } else if step.DoCleanup? {
      CleanupKeepsHistory(s, step.cutoff);
    } else {
      if step.DoReap? {
        ReapFollows(s, step.id, step.q, step.t, step.now);
      } else if step.DoExtend? || step.DoReestimate? {
        RewriteFollows(s, step);
      } else {
        QuietFollows(s, step);
      }
      FollowingKeeps(s, Next(s, step));
    }
  }

  lemma {:induction false} RunKeepsHistory(s: State, steps: seq<Step>)
    requires HistoryInv(s) && ValidRun(s, steps)
    ensures HistoryInv(Exec(s, steps))
    decreases |steps|
  {
    if steps != [] {
      StepKeepsHistory(s, steps[0]);
      RunKeepsHistory(Next(s, steps[0]), steps[1..]);
    }
  }

  /**
   Durable result before publish: at every step of every run, a request with a published
   terminal frame has had its terminal result stored, and still has it unless it was pruned.
   */
  lemma PublishedOnlyAfterStored(loadAttempts: nat, steps: seq<Step>, rid: RequestId)
    requires ValidRun(Init(loadAttempts), steps)
    requires rid in Exec(Init(loadAttempts), steps).published
    ensures var s := Exec(Init(loadAttempts), steps);
            rid in s.decided && (rid in s.results ==> IsTerminal(s.results[rid].status))
  {
    InitHolds(loadAttempts);
    RunKeepsHistory(Init(loadAttempts), steps);
    assert ResultOk(Exec(Init(loadAttempts), steps), rid);
  }

  /** An answered request stays answered, whatever runs after. */
  lemma {:induction false} AnsweredStaysAnswered(s: State, steps: seq<Step>, rid: RequestId)
    requires HistoryInv(s) && ValidRun(s, steps) && rid in s.decided
    ensures var n := Exec(s, steps); rid in n.decided && (rid in n.results ==> IsTerminal(n.results[rid].status))
    decreases |steps|
  {
    if steps == [] {
      assert ResultOk(s, rid);
    } else {
      StepKeepsHistory(s, steps[0]);
      DecidedGrows(s, steps[0]);
      AnsweredStaysAnswered(Next(s, steps[0]), steps[1..], rid);
    }
  }

  lemma DecidedGrows(s: State, step: Step)
    requires Enabled(s, step)
    ensures s.decided <= Next(s, step).decided
  {
    if IsDispatchStep(step) {
      DispatchDecides(s, step);
    } else if IsPlacementStep(step) {
      PlacementDecides(s, step);
    }
  }

  lemma DispatchDecides(s: State, step: Step)
    requires Enabled(s, step) && IsDispatchStep(step)
    ensures s.decided <= Next(s, step).decided
  {
  }

  lemma PlacementDecides(s: State, step: Step)
    requires Enabled(s, step) && IsPlacementStep(step)
    ensures s.decided <= Next(s, step).decided
  {
  }
}
