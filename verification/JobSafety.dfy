/** Every step of the job protocol keeps the invariant, and so does every run. */
module JobSafety {
  import opened EnvelopeCodec
  import opened JobInvariants
  import opened JobProtocol
  import opened LeaseQueue
  import opened ResultStore

  lemma InitHolds(loadAttempts: nat)
    ensures Inv(Init(loadAttempts))
  {
  }

  // --- Placement ---

  lemma SubmitKeeps(s: State, env: Envelope, id: MsgId, now: int)
    requires Inv(s) && Enabled(s, DoSubmit(env, id, now))
    ensures Inv(Submit(s, env, id, now))
  {
    SubmittingKeeps(s.rows, s.used, id, env, now);
    SubmitKeepsTasks(s, env, id, now);
    SubmitKeepsResults(s, env, id, now);
  }

  lemma SubmitKeepsTasks(s: State, env: Envelope, id: MsgId, now: int)
    requires Inv(s) && Enabled(s, DoSubmit(env, id, now))
    ensures TasksOk(Submit(s, env, id, now))
  {
    var n := Submit(s, env, id, now);
    forall t | t in n.tasks
      ensures n.tasks[t].Resubmit? ==> n.tasks[t].env.requestID != env.requestID
    {
      assert TaskOk(s, s.tasks[t]);
    }
    SameTasksStayOk(s, n);
  }

  lemma SubmitKeepsResults(s: State, env: Envelope, id: MsgId, now: int)
    requires HistoryOk(s) && Enabled(s, DoSubmit(env, id, now))
    ensures HistoryOk(Submit(s, env, id, now))
  {
    var n := Submit(s, env, id, now);
    forall rid | rid in n.resubmits
      ensures ResultOk(n, rid)
    {
      if rid != env.requestID { assert ResultOk(s, rid); }
    }
  }

  lemma PlaceKeeps(s: State, gid: MsgId, w: WorkerId, queuedBits: Bits64, id: MsgId, duration: int, now: int)
    requires Inv(s) && Enabled(s, DoPlace(gid, w, queuedBits, id, duration, now))
    ensures Inv(Place(s, gid, w, queuedBits, id, duration, now))
  {
    assert RowOk(s.rows, s.used, gid);
    if Leasable(s.rows, Global, gid, now) {
      PlacedKeeps(s, gid, w, queuedBits, id, duration, now);
    } else {
      var n := Place(s, gid, w, queuedBits, id, duration, now);
      UnusedIdKeeps(s.rows, s.used, id);
      SameTasksStayOk(s, n);
      SameHistory(s, n);
    }
  }

  /** The placement that wins the race for the row. */
  lemma PlacedKeeps(s: State, gid: MsgId, w: WorkerId, queuedBits: Bits64, id: MsgId, duration: int, now: int)
    requires Inv(s) && Enabled(s, DoPlace(gid, w, queuedBits, id, duration, now)) && Leasable(s.rows, Global, gid, now)
    ensures Inv(Place(s, gid, w, queuedBits, id, duration, now))
  {
    var env := s.rows[gid].body.env.(globalMsgID := gid, queuedBits := queuedBits);
    var rows := LeasedAndSubmitted(s.rows, Global, gid, duration, Worker(w), env, id, now);
    PlacingKeeps(s.rows, s.used, gid, w, queuedBits, id, duration, now);
    PlacedRows(s.rows, s.used, gid, w, queuedBits, id, duration, now);
    AnotherRowKeeps(s, rows, gid, id);
  }

  /** New rows in which one row is new, of a request that had one, and the others keep their identity. */
  lemma AnotherRowKeeps(s: State, rows: Rows, known: MsgId, id: MsgId)
    requires Inv(s) && known in s.rows && id !in s.used && RowsOk(rows, s.used + {id})
    requires rows.Keys == s.rows.Keys + {id} && Request(rows[id]) == Request(s.rows[known])
    requires forall x :: x in s.rows ==> SameIdentity(s.rows[x], rows[x])
    ensures Inv(s.(rows := rows, used := s.used + {id}))
  {
    var n := s.(rows := rows, used := s.used + {id});
    AnotherRowKeepsTasks(s, n, known);
    SameHistory(s, n);
  }

  /** The rows of a won placement: the leased anchor, one new row of its request, the rest untouched. */
  lemma PlacedRows(rows: Rows, used: set<MsgId>, gid: MsgId, w: WorkerId, queuedBits: Bits64, id: MsgId, duration: int, now: int)
    requires RowsOk(rows, used) && gid in rows && Leasable(rows, Global, gid, now) && id !in used
    requires RowOk(rows, used, gid)
    ensures var env := rows[gid].body.env.(globalMsgID := gid, queuedBits := queuedBits);
            var next := LeasedAndSubmitted(rows, Global, gid, duration, Worker(w), env, id, now);
            && next.Keys == rows.Keys + {id} && Request(next[id]) == Request(rows[gid])
            && (forall x :: x in rows ==> SameIdentity(rows[x], next[x]))
  {
    assert id !in rows by {
      assert id in rows ==> RowOk(rows, used, id);
    }
  }

  /** A new row of a request that had one already disturbs no task. */
  lemma AnotherRowKeepsTasks(s: State, n: State, known: MsgId)
    requires Inv(s) && Evolves(s, n) && n.tasks == s.tasks && known in s.rows
    requires forall id :: id in n.rows && id !in s.rows ==> Request(n.rows[id]) == Request(s.rows[known])
    ensures TasksOk(n)
  {
    RetryOfAPresentRowIsDistinct(s, known);
    SameTasksStayOk(s, n);
  }

  /** While a row of the request exists, no resubmission of it is pending. */
  lemma RetryOfAPresentRowIsDistinct(s: State, id: MsgId)
    requires Inv(s) && id in s.rows
    ensures forall u :: u in s.tasks && s.tasks[u].Resubmit? ==> s.tasks[u].env.requestID != Request(s.rows[id])
  {
    forall u | u in s.tasks && s.tasks[u].Resubmit?
      ensures s.tasks[u].env.requestID != Request(s.rows[id])
    {
      assert TaskOk(s, s.tasks[u]);
    }
  }

  /** Marking an id as used costs nothing. */
  lemma UnusedIdKeeps(rows: Rows, used: set<MsgId>, id: MsgId)
    requires RowsOk(rows, used) && id != []
    ensures RowsOk(rows, used + {id})
  {
    forall x | x in rows
      ensures RowOk(rows, used + {id}, x)
    {
      assert RowOk(rows, used, x);
    }
  }

  /** A step that writes no result and submits nothing keeps the history, whatever it does to rows of known requests. */
  lemma SameHistory(s: State, n: State)
    requires HistoryOk(s)
    requires n.results == s.results && n.decided == s.decided && n.published == s.published
    requires n.resubmits == s.resubmits && n.inflight.Keys <= s.inflight.Keys
    requires forall id :: id in n.rows ==> Request(n.rows[id]) in s.resubmits
    ensures HistoryOk(n)
  {
    forall rid | rid in n.resubmits
      ensures ResultOk(n, rid)
    {
      assert ResultOk(s, rid);
    }
  }

  lemma StealKeeps(s: State, wid: MsgId, src: WorkerId, dst: WorkerId, id: MsgId, now: int)
    requires Inv(s) && Enabled(s, DoSteal(wid, src, dst, id, now))
    ensures Inv(Steal(s, wid, src, dst, id, now))
  {
    var n := Steal(s, wid, src, dst, id, now);
    assert RowOk(s.rows, s.used, wid);
    if Leasable(s.rows, Worker(src), wid, now) {
      MovingKeeps(s.rows, s.used, wid, src, dst, s.rows[wid].body.env.priority, id, now);
    } else {
      UnusedIdKeeps(s.rows, s.used, id);
    }
    AnotherRowKeepsTasks(s, n, wid);
    SameHistory(s, n);
  }

  lemma FailUnbenchableKeeps(s: State, gid: MsgId, error: string, t: TaskId, now: int)
    requires Inv(s) && Enabled(s, DoFailUnbenchable(gid, error, t, now))
    ensures Inv(FailUnbenchable(s, gid, error, t))
  {
    assert RowOk(s.rows, s.used, gid);
    AddingATaskKeeps(s, t, FailUnbenchable(s, gid, error, t).tasks[t], s.buffered);
  }

  // --- Dispatch ---

  /** Taking on a task that is sound where it starts. */
  lemma AddingATaskKeeps(s: State, t: TaskId, task: Task, buffered: set<RequestId>)
    requires Inv(s) && TaskOk(s, task) && !task.Resubmit?
    ensures Inv(s.(tasks := s.tasks[t := task], buffered := buffered))
  {
    var n := s.(tasks := s.tasks[t := task], buffered := buffered);
    TasksStayOk(s, n, t);
    SameHistory(s, n);
  }

  /** The lease itself, before the dispatch looks at what it leased. */
  lemma LeasedRowKeeps(s: State, wid: MsgId, w: WorkerId, duration: int, now: int)
    requires Inv(s) && Leasable(s.rows, Worker(w), wid, now)
    ensures Inv(s.(rows := Leased(s.rows, Worker(w), wid, now, duration)))
    ensures s.rows[wid].body.Decoded?
  {
    var n := s.(rows := Leased(s.rows, Worker(w), wid, now, duration));
    assert RowOk(s.rows, s.used, wid);
    TouchingARowKeeps(s.rows, s.used, wid, n.rows[wid]);
    SameTasksStayOk(s, n);
    SameHistory(s, n);
  }

  /** A worker row's own coordinates, as tasks record them. */
  lemma RowsOfAreOk(s: State, wid: MsgId, w: WorkerId)
    requires Inv(s) && On(s.rows, Worker(w), wid)
    ensures s.rows[wid].body.Decoded?
    ensures var env := s.rows[wid].body.env;
            && AfterOk(s, env.requestID, RowsOf(w, wid, env.globalMsgID))
            && TaskOk(s, Loading(wid, w, env))
            && env.requestID in s.resubmits
            && ResultOk(s, env.requestID)
  {
    assert RowOk(s.rows, s.used, wid);
    assert AnchorAgrees(s.rows, wid);
  }

  lemma LeaseKeeps(s: State, wid: MsgId, w: WorkerId, t: TaskId, duration: int, now: int)
    requires Inv(s) && Enabled(s, DoLease(wid, w, t, duration, now))
    ensures Inv(Lease(s, wid, w, t, duration, now))
  {
    LeasedRowKeeps(s, wid, w, duration, now);
    var n := Lease(s, wid, w, t, duration, now);
    var m := s.(rows := Leased(s.rows, Worker(w), wid, now, duration));
    RowsOfAreOk(m, wid, w);
    AddingATaskKeeps(m, t, n.tasks[t], n.buffered);
  }

  lemma BounceKeeps(s: State, t: TaskId, delay: int, now: int)
    requires Inv(s) && Enabled(s, DoBounce(t, delay, now))
    ensures Inv(Bounce(s, t, delay, now))
  {
    var n := Bounce(s, t, delay, now);
    var d := s.tasks[t];
    if On(s.rows, Worker(d.w), d.wid) {
      TouchingARowKeeps(s.rows, s.used, d.wid, n.rows[d.wid]);
    }
    TasksStayOk(s, n, t);
    SameHistory(s, n);
  }

  lemma LoadFailedKeeps(s: State, t: TaskId, error: string)
    requires Inv(s) && Enabled(s, DoLoadFailed(t, error)) && !Doubles(s, DoLoadFailed(t, error))
    ensures Inv(LoadFailed(s, t, error))
  {
    var d := s.tasks[t];
    assert TaskOk(s, d);
    if RetryLeft(s, d.env) {
      RetryKeeps(s, t, error);
    } else {
      AddingATaskKeeps(s, t, LoadFailed(s, t, error).tasks[t], s.buffered);
    }
  }

  lemma RetryKeeps(s: State, t: TaskId, error: string)
    requires Inv(s) && Enabled(s, DoLoadFailed(t, error)) && !Doubles(s, DoLoadFailed(t, error))
    requires RetryLeft(s, s.tasks[t].env)
    ensures Inv(LoadFailed(s, t, error))
  {
    var n := LoadFailed(s, t, error);
    var d := s.tasks[t];
    assert TaskOk(s, d);
    DroppingRowsKeeps(s.rows, s.used, n.rows);
    if d.wid in s.rows {
      BothDeletedLeavesNone(s.rows, s.used, d.wid, d.w);
      RetryOfAPresentRowIsDistinct(s, d.wid);
    }
    assert NoRowsOf(n.rows, d.env.requestID);
    TasksStayOk(s, n, t);
    SameHistory(s, n);
  }

  /** A doubling retry breaks the invariant at once. */
  lemma DoublingBreaks(s: State, step: Step)
    requires Doubles(s, step)
    ensures !Inv(Next(s, step))
  {
    var n, d := Next(s, step), s.tasks[step.t];
    assert n.tasks[step.t] == Resubmit(Retried(d.env), false);
    if RetryPending(s, step.t, d.env.requestID) {
      var u :| u in s.tasks && u != step.t && s.tasks[u].Resubmit? && s.tasks[u].env.requestID == d.env.requestID;
      assert n.tasks[u] == s.tasks[u] && !DistinctRetries(n.tasks[u], n.tasks[step.t]);
    } else {
      assert n.rows == Deleted(s.rows, Global, d.env.globalMsgID);
      assert !TaskOk(n, n.tasks[step.t]);
    }
  }

  lemma AbortKeeps(s: State, t: TaskId)
    requires Inv(s) && Enabled(s, DoAbort(t))
    ensures Inv(Abort(s, t))
  {
    assert TaskOk(s, s.tasks[t]);
    AddingATaskKeeps(s, t, Abort(s, t).tasks[t], s.buffered);
  }

  lemma StartKeeps(s: State, t: TaskId)
    requires Inv(s) && Enabled(s, DoStart(t))
    ensures Inv(Start(s, t))
  {
    var n := Start(s, t);
    assert TaskOk(s, s.tasks[t]);
    TasksStayOk(s, n, t);
    forall rid | rid in n.resubmits
      ensures ResultOk(n, rid)
    {
      assert ResultOk(s, rid);
    }
  }

  lemma AssignFailedKeeps(s: State, t: TaskId, error: string)
    requires Inv(s) && Enabled(s, DoAssignFailed(t, error))
    ensures Inv(AssignFailed(s, t, error))
  {
    assert TaskOk(s, s.tasks[t]);
    AddingATaskKeeps(s, t, AssignFailed(s, t, error).tasks[t], s.buffered);
  }

  /** An in-flight record, or a whole task, may go at any time. */
  lemma ForgettingKeeps(s: State, rid: RequestId)
    requires Inv(s)
    ensures Inv(s.(inflight := s.inflight - {rid}))
  {
    var n := s.(inflight := s.inflight - {rid});
    SameTasksStayOk(s, n);
    SameHistory(s, n);
  }

  lemma StreamEndKeeps(s: State, t: TaskId, ending: StreamEnding, online: bool)
    requires Inv(s) && Enabled(s, DoStreamEnd(t, ending, online))
    ensures Inv(StreamEnd(s, t, ending, online))
  {
    var n, m := StreamEnd(s, t, ending, online), s.(inflight := s.inflight - {s.tasks[t].rid});
    ForgettingKeeps(s, s.tasks[t].rid);
    assert TaskOk(m, m.tasks[t]);
    if t in n.tasks {
      AddingATaskKeeps(m, t, n.tasks[t], m.buffered);
    } else {
      TasksStayOk(m, n, t);
      SameHistory(m, n);
    }
  }

  // --- Finishing ---

  /** A verdict written for a submitted request leaves it decided, and every other request as it was. */
  lemma DecideKeepsHistory(s: State, rid: RequestId, v: Verdict, now: int)
    requires HistoryOk(s) && rid in s.resubmits
    ensures HistoryOk(Decide(s, rid, v, now))
    ensures rid in Decide(s, rid, v, now).decided
  {
    var n := Decide(s, rid, v, now);
    assert ResultOk(s, rid);
    forall r | r in n.resubmits
      ensures ResultOk(n, r)
    {
      assert ResultOk(s, r);
    }
  }

  lemma SettleKeeps(s: State, t: TaskId, id: MsgId, now: int)
    requires Inv(s) && t in s.tasks && s.tasks[t].Settle?
    ensures Inv(Advance(s, t, id, now))
  {
    var d := s.tasks[t];
    assert TaskOk(s, d);
    DecideKeepsHistory(s, d.rid, d.verdict, now);
    assert HistoryOk(Advance(s, t, id, now));
    SettleKeepsTasks(s, t, id, now);
  }

  lemma SettleKeepsTasks(s: State, t: TaskId, id: MsgId, now: int)
    requires Inv(s) && t in s.tasks && s.tasks[t].Settle?
    ensures TasksOk(Advance(s, t, id, now))
  {
    var n, d := Advance(s, t, id, now), s.tasks[t];
    assert TaskOk(s, d);
    DecideKeepsHistory(s, d.rid, d.verdict, now);
    assert TaskOk(n, n.tasks[t]);
    TasksStayOk(s, n, t);
  }

  lemma AnnounceKeeps(s: State, t: TaskId, id: MsgId, now: int)
    requires Inv(s) && t in s.tasks && s.tasks[t].Announce?
    ensures Inv(Advance(s, t, id, now))
  {
    var n := Advance(s, t, id, now);
    assert TaskOk(s, s.tasks[t]);
    TasksStayOk(s, n, t);
    forall rid | rid in n.resubmits
      ensures ResultOk(n, rid)
    {
      assert ResultOk(s, rid);
    }
  }

  lemma DropKeeps(s: State, t: TaskId, id: MsgId, now: int)
    requires Inv(s) && t in s.tasks && s.tasks[t].Drop?
    ensures Inv(Advance(s, t, id, now))
  {
    var n := Advance(s, t, id, now);
    DroppingRowsKeeps(s.rows, s.used, n.rows);
    TasksStayOk(s, n, t);
    SameHistory(s, n);
  }

  lemma CancelSettleKeeps(s: State, t: TaskId, id: MsgId, now: int)
    requires Inv(s) && t in s.tasks && s.tasks[t].CancelSettle?
    ensures Inv(Advance(s, t, id, now))
  {
    var n := Advance(s, t, id, now);
    assert TaskOk(s, s.tasks[t]);
    DecideKeepsHistory(s, s.tasks[t].rid, Fault(CANCELLED), now);
    TasksStayOk(s, n, t);
    assert HistoryOk(n);
  }

  lemma ResubmitKeeps(s: State, t: TaskId, id: MsgId, now: int)
    requires Inv(s) && t in s.tasks && s.tasks[t].Resubmit? && IsFresh(s, id)
    ensures Inv(Advance(s, t, id, now))
  {
    var n := Advance(s, t, id, now);
    var env := s.tasks[t].env;
    assert TaskOk(s, s.tasks[t]);
    SubmittingKeeps(s.rows, s.used, id, env, now);
    forall u | u in n.tasks
      ensures n.tasks[u].Resubmit? ==> n.tasks[u].env.requestID != env.requestID
    {
      assert DistinctRetries(s.tasks[t], s.tasks[u]);
    }
    TasksStayOk(s, n, t);
    forall rid | rid in n.resubmits
      ensures ResultOk(n, rid)
    {
      assert ResultOk(s, rid);
    }
  }

  lemma AdvanceKeeps(s: State, t: TaskId, id: MsgId, now: int)
    requires Inv(s) && Enabled(s, DoAdvance(t, id, now))
    ensures Inv(Advance(s, t, id, now))
  {
    match s.tasks[t]
    case Settle(_, _, _, _, _) => SettleKeeps(s, t, id, now);
    case Announce(_, _, _) => AnnounceKeeps(s, t, id, now);
    case Drop(_, _) => DropKeeps(s, t, id, now);
    case CancelSettle(_) => CancelSettleKeeps(s, t, id, now);
    case Resubmit(_, _) => ResubmitKeeps(s, t, id, now);
  }

  // --- Draining, evicting, cancelling ---

  /** Both rows of a worker row's job deleted, its retry pending. */
  lemma RetryingKeeps(s: State, wid: MsgId, w: WorkerId, t: TaskId, revert: bool)
    requires Inv(s) && On(s.rows, Worker(w), wid) && s.rows[wid].body.Decoded?
    ensures var env := s.rows[wid].body.env;
            Inv(s.(rows := BothDeleted(s.rows, Worker(w), wid, Global, env.globalMsgID),
                   tasks := s.tasks[t := Resubmit(Retried(env), revert)]))
  {
    var env := s.rows[wid].body.env;
    var n := s.(rows := BothDeleted(s.rows, Worker(w), wid, Global, env.globalMsgID),
                tasks := s.tasks[t := Resubmit(Retried(env), revert)]);
    assert RowOk(s.rows, s.used, wid);
    DroppingRowsKeeps(s.rows, s.used, n.rows);
    BothDeletedLeavesNone(s.rows, s.used, wid, w);
    RetryOfAPresentRowIsDistinct(s, wid);
    TasksStayOk(s, n, t);
    SameHistory(s, n);
  }

  lemma HandedBackKeeps(s: State, wid: MsgId, w: WorkerId, now: int)
    requires Inv(s) && On(s.rows, Worker(w), wid)
    ensures Inv(s.(rows := DeletedAndReleased(s.rows, Worker(w), wid, Global, AnchorOf(s.rows[wid].body), now)))
  {
    var n := s.(rows := DeletedAndReleased(s.rows, Worker(w), wid, Global, AnchorOf(s.rows[wid].body), now));
    HandingBackKeeps(s.rows, s.used, wid, w, now);
    SameTasksStayOk(s, n);
    SameHistory(s, n);
  }

  lemma DrainKeeps(s: State, wid: MsgId, w: WorkerId, includeLeased: bool, t: TaskId, now: int)
    requires Inv(s) && Enabled(s, DoDrain(wid, w, includeLeased, t, now))
    ensures Inv(Drain(s, wid, w, includeLeased, t, now))
  {
    RowsOfAreOk(s, wid, w);
    var rows := RowsOf(w, wid, AnchorOf(s.rows[wid].body));
    match DrainDecision(s, s.rows[wid], includeLeased, now)
    case Leave =>
    case Finish(error) => AddingATaskKeeps(s, t, Settle(Request(s.rows[wid]), Fault(error), rows, false, false), s.buffered);
    case Discard => AddingATaskKeeps(s, t, Drop(Request(s.rows[wid]), rows), s.buffered);
    case HandBack => HandedBackKeeps(s, wid, w, now);
    case Retry => RetryingKeeps(s, wid, w, t, true);
  }

  lemma EvictKeeps(s: State, wid: MsgId, w: WorkerId, now: int)
    requires Inv(s) && Enabled(s, DoEvict(wid, w, now))
    ensures Inv(Evict(s, wid, w, now))
  {
    HandedBackKeeps(s, wid, w, now);
  }

  lemma CancelQueuedKeeps(s: State, id: MsgId, q: QueueName, t: TaskId, now: int)
    requires Inv(s) && Enabled(s, DoCancelQueued(id, q, t, now))
    ensures Inv(CancelQueued(s, id, q, t))
  {
    var n := CancelQueued(s, id, q, t);
    assert RowOk(s.rows, s.used, id);
    DroppingRowsKeeps(s.rows, s.used, n.rows);
    TasksStayOk(s, n, t);
    SameHistory(s, n);
  }

  lemma ReapBufferKeeps(s: State, rid: RequestId, t: TaskId)
    requires Inv(s) && Enabled(s, DoReapBuffer(rid, t))
    ensures Inv(ReapBuffer(s, rid, t))
  {
    TasksStayOk(s, ReapBuffer(s, rid, t), t);
    SameHistory(s, ReapBuffer(s, rid, t));
  }

  // --- The rest ---

  lemma CleanupKeeps(s: State, cutoff: int)
    requires Inv(s)
    ensures Inv(s.(results := Pruned(s.results, cutoff)))
  {
    var n := s.(results := Pruned(s.results, cutoff));
    SameTasksStayOk(s, n);
    forall rid | rid in n.resubmits
      ensures ResultOk(n, rid)
    {
      assert ResultOk(s, rid);
    }
  }

  lemma ExtendKeeps(s: State, wid: MsgId, w: WorkerId, until: int)
    requires Inv(s)
    ensures Inv(s.(rows := Extended(s.rows, Worker(w), wid, until)))
  {
    var n := s.(rows := Extended(s.rows, Worker(w), wid, until));
    if On(s.rows, Worker(w), wid) { TouchingARowKeeps(s.rows, s.used, wid, n.rows[wid]); }
    SameTasksStayOk(s, n);
    SameHistory(s, n);
  }

  lemma ReestimateKeeps(s: State, wid: MsgId, w: WorkerId, queuedBits: Bits64)
    requires Inv(s)
    ensures Inv(Reestimate(s, wid, w, queuedBits))
  {
    var n := Reestimate(s, wid, w, queuedBits);
    if On(s.rows, Worker(w), wid) {
      assert RowOk(s.rows, s.used, wid);
      TouchingARowKeeps(s.rows, s.used, wid, n.rows[wid]);
    }
    SameTasksStayOk(s, n);
    SameHistory(s, n);
  }

  lemma CrashKeeps(s: State)
    requires Inv(s)
    ensures Inv(Crash(s))
  {
    SameHistory(s, Crash(s));
  }

  lemma ReapKeeps(s: State, id: MsgId, q: QueueName, t: TaskId, now: int)
    requires Inv(s) && Enabled(s, DoReap(id, q, t, now))
    ensures Inv(Reap(s, id, q, t))
  {
    assert RowOk(s.rows, s.used, id);
    if q.Worker? { assert AnchorAgrees(s.rows, id); }
    assert ResultOk(s, Request(s.rows[id]));
    AddingATaskKeeps(s, t, ReapOf(s, id, q), s.buffered);
  }

  predicate IsDispatchStep(step: Step) {
    || step.DoLease? || step.DoBounce? || step.DoLoadFailed? || step.DoAbort? || step.DoStart?
    || step.DoAssignFailed? || step.DoStreamEnd? || step.DoAdvance?
  }

  predicate IsPlacementStep(step: Step) {
    || step.DoSubmit? || step.DoPlace? || step.DoFailUnbenchable? || step.DoSteal?
    || step.DoDrain? || step.DoEvict? || step.DoCancelQueued?
  }

  lemma DispatchStepKeeps(s: State, step: Step)
    requires Inv(s) && Enabled(s, step) && IsDispatchStep(step)
    requires !Doubles(s, step)
    ensures Inv(Next(s, step))
  {
    if step.DoLease? || step.DoBounce? || step.DoLoadFailed? || step.DoAbort? {
      LoadStepKeeps(s, step);
    } else {
      StreamStepKeeps(s, step);
    }
  }

  lemma LoadStepKeeps(s: State, step: Step)
    requires Inv(s) && Enabled(s, step)
    requires step.DoLease? || step.DoBounce? || step.DoLoadFailed? || step.DoAbort?
    requires !Doubles(s, step)
    ensures Inv(Next(s, step))
  {
    match step
    case DoLease(wid, w, t, duration, now) => LeaseKeeps(s, wid, w, t, duration, now);
    case DoBounce(t, delay, now) => BounceKeeps(s, t, delay, now);
    case DoLoadFailed(t, error) => LoadFailedKeeps(s, t, error);
    case DoAbort(t) => AbortKeeps(s, t);
  }

  lemma StreamStepKeeps(s: State, step: Step)
    requires Inv(s) && Enabled(s, step)
    requires step.DoStart? || step.DoAssignFailed? || step.DoStreamEnd? || step.DoAdvance?
    ensures Inv(Next(s, step))
  {
    match step
    case DoStart(t) => StartKeeps(s, t);
    case DoAssignFailed(t, error) => AssignFailedKeeps(s, t, error);
    case DoStreamEnd(t, ending, online) => StreamEndKeeps(s, t, ending, online);
    case DoAdvance(t, id, now) => AdvanceKeeps(s, t, id, now);
  }

  lemma PlacementStepKeeps(s: State, step: Step)
    requires Inv(s) && Enabled(s, step) && IsPlacementStep(step)
    ensures Inv(Next(s, step))
  {
    if step.DoDrain? || step.DoEvict? || step.DoCancelQueued? {
      UnplacementStepKeeps(s, step);
    } else {
      NewPlacementStepKeeps(s, step);
    }
  }

  lemma NewPlacementStepKeeps(s: State, step: Step)
    requires Inv(s) && Enabled(s, step)
    requires step.DoSubmit? || step.DoPlace? || step.DoFailUnbenchable? || step.DoSteal?
    ensures Inv(Next(s, step))
  {
    match step
    case DoSubmit(env, id, now) => SubmitKeeps(s, env, id, now);
    case DoPlace(gid, w, queuedBits, id, duration, now) => PlaceKeeps(s, gid, w, queuedBits, id, duration, now);
    case DoFailUnbenchable(gid, error, t, now) => FailUnbenchableKeeps(s, gid, error, t, now);
    case DoSteal(wid, src, dst, id, now) => StealKeeps(s, wid, src, dst, id, now);
  }

  lemma UnplacementStepKeeps(s: State, step: Step)
    requires Inv(s) && Enabled(s, step) && (step.DoDrain? || step.DoEvict? || step.DoCancelQueued?)
    ensures Inv(Next(s, step))
  {
    match step
    case DoDrain(wid, w, includeLeased, t, now) => DrainKeeps(s, wid, w, includeLeased, t, now);
    case DoEvict(wid, w, now) => EvictKeeps(s, wid, w, now);
    case DoCancelQueued(id, q, t, now) => CancelQueuedKeeps(s, id, q, t, now);
  }

  lemma OtherStepKeeps(s: State, step: Step)
    requires Inv(s) && Enabled(s, step) && !IsDispatchStep(step) && !IsPlacementStep(step)
    ensures Inv(Next(s, step))
  {
    match step
    case DoCancelRunning(rid) =>
      SameTasksStayOk(s, CancelRunning(s, rid));
      SameHistory(s, CancelRunning(s, rid));
    case DoReapBuffer(rid, t) => ReapBufferKeeps(s, rid, t);
    case DoSweepBuffer(rid) =>
      SameTasksStayOk(s, s.(buffered := s.buffered - {rid}));
      SameHistory(s, s.(buffered := s.buffered - {rid}));
    case DoCleanup(cutoff) => CleanupKeeps(s, cutoff);
    case DoExtend(wid, w, until) => ExtendKeeps(s, wid, w, until);
    case DoReestimate(wid, w, queuedBits) => ReestimateKeeps(s, wid, w, queuedBits);
    case DoCrash => CrashKeeps(s);
    case DoReap(id, q, t, now) => ReapKeeps(s, id, q, t, now);
  }

  lemma StepKeeps(s: State, step: Step)
    requires Inv(s) && Enabled(s, step) && !Doubles(s, step)
    ensures Inv(Next(s, step))
  {
    if IsDispatchStep(step) {
      DispatchStepKeeps(s, step);
    } else if IsPlacementStep(step) {
      PlacementStepKeeps(s, step);
    } else {
      OtherStepKeeps(s, step);
    }
  }

  /** Of all the steps that can be taken, exactly the doubling retry breaks the invariant. */
  lemma StepKeepsExactly(s: State, step: Step)
    requires Inv(s) && Enabled(s, step)
    ensures Inv(Next(s, step)) <==> !Doubles(s, step)
  {
    if Doubles(s, step) {
      DoublingBreaks(s, step);
    } else {
      StepKeeps(s, step);
    }
  }

  lemma {:induction false} RunKeeps(s: State, steps: seq<Step>)
    requires Inv(s) && ValidRun(s, steps) && NoDoubling(s, steps)
    ensures Inv(Exec(s, steps))
    decreases |steps|
  {
    if steps != [] {
      StepKeeps(s, steps[0]);
      RunKeeps(Next(s, steps[0]), steps[1..]);
    }
  }
}
