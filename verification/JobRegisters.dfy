/**
 The in-flight records, replay buffers, published frames, result statuses and owners of
 the protocol: which steps, and only which, change what each says of a request.
 */
module JobRegisters {
  import opened EnvelopeCodec
  import opened JobProtocol
  import opened JobSafety
  import opened LeaseQueue
  import opened ResultStore
  import opened Wrappers

  // --- In-flight records ---

  predicate Starts(s: State, step: Step, rid: RequestId)
    requires Enabled(s, step)
  {
    step.DoStart? && s.tasks[step.t].env.requestID == rid
  }

  predicate EndsRecord(s: State, step: Step, rid: RequestId)
    requires Enabled(s, step)
  {
    || (step.DoStreamEnd? && s.tasks[step.t].rid == rid)
    || (step.DoAdvance? && s.tasks[step.t].Drop? && s.tasks[step.t].rid == rid && s.tasks[step.t].after.finish)
    || step.DoCrash?
  }

  ghost predicate RecordFollows(s: State, step: Step, rid: RequestId)
    requires Enabled(s, step)
  {
    var n := Next(s, step);
    && (rid in n.inflight <==> Starts(s, step, rid) || (rid in s.inflight && !EndsRecord(s, step, rid)))
    && (rid in n.inflight ==>
          (n.inflight[rid] <==> step == DoCancelRunning(rid) || (!Starts(s, step, rid) && rid in s.inflight && s.inflight[rid])))
  }

  /** A request has a record from its start until its stream ends, its refused assignment is cleaned up or the process dies, flagged exactly once it is cancelled. */
  lemma RecordsExactly(s: State, step: Step, rid: RequestId)
    requires Enabled(s, step)
    ensures RecordFollows(s, step, rid)
  {
    if IsDispatchStep(step) { DispatchRecords(s, step, rid); }
  }

  lemma DispatchRecords(s: State, step: Step, rid: RequestId)
    requires Enabled(s, step) && IsDispatchStep(step)
    ensures RecordFollows(s, step, rid)
  {
    if step.DoAdvance? {
      AdvanceRecords(s, step, rid);
    } else if step.DoAssignFailed? || step.DoStreamEnd? {
      StreamRecords(s, step, rid);
    } else {
      LoadRecords(s, step, rid);
    }
  }

  lemma AdvanceRecords(s: State, step: Step, rid: RequestId)
    requires Enabled(s, step) && step.DoAdvance?
    ensures RecordFollows(s, step, rid)
  {
  }

  lemma StreamRecords(s: State, step: Step, rid: RequestId)
    requires Enabled(s, step) && (step.DoAssignFailed? || step.DoStreamEnd?)
    ensures RecordFollows(s, step, rid)
  {
  }

  lemma LoadRecords(s: State, step: Step, rid: RequestId)
    requires Enabled(s, step) && (step.DoLease? || step.DoBounce? || step.DoLoadFailed? || step.DoAbort? || step.DoStart?)
    ensures RecordFollows(s, step, rid)
  {
  }

  // --- Replay buffers and frames ---

  predicate GainsBuffer(s: State, step: Step, rid: RequestId)
    requires Enabled(s, step)
  {
    || (step.DoSubmit? && step.env.requestID == rid)
    || (step.DoLease? && s.rows[step.wid].body.Decoded? && s.rows[step.wid].body.env.requestID == rid
        && rid in s.results && s.results[rid].status != Done && s.results[rid].status != Error)
    || (step.DoAdvance? && s.tasks[step.t].Announce? && s.tasks[step.t].rid == rid && s.tasks[step.t].rearm)
  }

  predicate LosesBuffer(s: State, step: Step, rid: RequestId)
    requires Enabled(s, step)
  {
    || (step.DoReapBuffer? && step.rid == rid) || (step.DoSweepBuffer? && step.rid == rid)
    || (step.DoAdvance? && s.tasks[step.t].CancelSettle? && s.tasks[step.t].rid == rid)
    || step.DoCrash?
  }

  ghost predicate BufferFollows(s: State, step: Step, rid: RequestId)
    requires Enabled(s, step)
  {
    var n := Next(s, step);
    && (rid in n.buffered <==> GainsBuffer(s, step, rid) || (rid in s.buffered && !LosesBuffer(s, step, rid)))
    && (rid in n.published <==> rid in s.published || (step.DoAdvance? && s.tasks[step.t].Announce? && s.tasks[step.t].rid == rid))
  }

  /** A request has a buffer from its submission, its dispatch or its announcement on, until it is swept, reaped or cancelled while queued, or the process dies; its frame is out once announced. */
  lemma BuffersExactly(s: State, step: Step, rid: RequestId)
    requires Enabled(s, step)
    ensures BufferFollows(s, step, rid)
  {
    if IsDispatchStep(step) {
      DispatchBuffers(s, step, rid);
    } else if IsPlacementStep(step) {
      PlacementBuffers(s, step, rid);
    }
  }

  lemma PlacementBuffers(s: State, step: Step, rid: RequestId)
    requires Enabled(s, step) && IsPlacementStep(step)
    ensures BufferFollows(s, step, rid)
  {
    if step.DoDrain? {
      assert DrainKeepsBuffers(s, step);
    } else if step.DoSubmit? || step.DoPlace? || step.DoSteal? {
      RowsOnlyBuffers(s, step, rid);
    }
  }

  predicate DrainKeepsBuffers(s: State, step: Step)
    requires Enabled(s, step) && step.DoDrain?
  {
    var n := Drain(s, step.wid, step.w, step.includeLeased, step.t, step.now);
    n.buffered == s.buffered && n.published == s.published
  }

  lemma RowsOnlyBuffers(s: State, step: Step, rid: RequestId)
    requires Enabled(s, step) && (step.DoSubmit? || step.DoPlace? || step.DoSteal?)
    ensures BufferFollows(s, step, rid)
  {
  }

  lemma DispatchBuffers(s: State, step: Step, rid: RequestId)
    requires Enabled(s, step) && IsDispatchStep(step)
    ensures BufferFollows(s, step, rid)
  {
    if step.DoAdvance? {
      AdvanceBuffers(s, step, rid);
    } else if step.DoAssignFailed? || step.DoStreamEnd? {
      StreamBuffers(s, step, rid);
    } else {
      LoadBuffers(s, step, rid);
    }
  }

  lemma AdvanceBuffers(s: State, step: Step, rid: RequestId)
    requires Enabled(s, step) && step.DoAdvance?
    ensures BufferFollows(s, step, rid)
  {
  }

  lemma StreamBuffers(s: State, step: Step, rid: RequestId)
    requires Enabled(s, step) && (step.DoAssignFailed? || step.DoStreamEnd?)
    ensures BufferFollows(s, step, rid)
  {
  }

  lemma LoadBuffers(s: State, step: Step, rid: RequestId)
    requires Enabled(s, step) && (step.DoLease? || step.DoBounce? || step.DoLoadFailed? || step.DoAbort? || step.DoStart?)
    ensures BufferFollows(s, step, rid)
  {
  }

  // --- Live results ---

  /** The request is put back to pending by the retry of a drain. */
  predicate Reverts(s: State, step: Step, rid: RequestId)
    requires Enabled(s, step)
  {
    step.DoAdvance? && s.tasks[step.t].Resubmit? && s.tasks[step.t].revert && s.tasks[step.t].env.requestID == rid
  }

  /** A verdict for the request is stored. */
  predicate Stores(s: State, step: Step, rid: RequestId)
    requires Enabled(s, step)
  {
    step.DoAdvance? && (s.tasks[step.t].Settle? || s.tasks[step.t].CancelSettle?) && s.tasks[step.t].rid == rid
  }

  predicate Expired(r: JobResult, step: Step) {
    step.DoCleanup? && (r.status == Done || r.status == Error) && r.completedAt.Some? && r.completedAt.value < step.cutoff
  }

  ghost predicate StatusFollows(s: State, step: Step, rid: RequestId)
    requires Enabled(s, step)
  {
    var n := Next(s, step);
    && (rid in n.results <==> (rid in s.results && !Expired(s.results[rid], step)) || (step.DoSubmit? && step.env.requestID == rid))
    && (rid in n.results && rid !in s.results ==> n.results[rid].status == Pending && n.results[rid].completedAt.None?)
    && (rid in n.results && rid in s.results && !Stores(s, step, rid) ==>
          n.results[rid] == s.results[rid].(status :=
            if s.results[rid].status == Pending && Starts(s, step, rid) then Processing
            else if s.results[rid].status == Processing && Reverts(s, step, rid) then Pending
            else s.results[rid].status))
  }

  /** A result is pending from its submission, processing from its start, pending again with a drained retry, and otherwise as it was until a verdict or its expiry. */
  lemma StatusesExactly(s: State, step: Step, rid: RequestId)
    requires Enabled(s, step)
    ensures StatusFollows(s, step, rid)
  {
    if IsDispatchStep(step) { DispatchStatuses(s, step, rid); }
  }

  lemma DispatchStatuses(s: State, step: Step, rid: RequestId)
    requires Enabled(s, step) && IsDispatchStep(step)
    ensures StatusFollows(s, step, rid)
  {
    if step.DoAdvance? {
      AdvanceStatuses(s, step, rid);
    } else if step.DoAssignFailed? || step.DoStreamEnd? {
      StreamStatuses(s, step, rid);
    } else {
      LoadStatuses(s, step, rid);
    }
  }

  lemma AdvanceStatuses(s: State, step: Step, rid: RequestId)
    requires Enabled(s, step) && step.DoAdvance?
    ensures StatusFollows(s, step, rid)
  {
  }

  lemma StreamStatuses(s: State, step: Step, rid: RequestId)
    requires Enabled(s, step) && (step.DoAssignFailed? || step.DoStreamEnd?)
    ensures StatusFollows(s, step, rid)
  {
  }

  lemma LoadStatuses(s: State, step: Step, rid: RequestId)
    requires Enabled(s, step) && (step.DoLease? || step.DoBounce? || step.DoLoadFailed? || step.DoAbort? || step.DoStart?)
    ensures StatusFollows(s, step, rid)
  {
  }

  // --- Owners ---

  /** What a started dispatch hands to its pump, and what a lease hands to its dispatch. */
  lemma StartedIsStreaming(s: State, t: TaskId)
    requires Enabled(s, DoStart(t))
    ensures var d, n := s.tasks[t], Next(s, DoStart(t));
            n.rows == s.rows && n.tasks == s.tasks[t := Streaming(d.wid, d.w, d.env.globalMsgID, d.env.requestID)]
  {
  }

  /** A leased job is loaded unless nobody waits for it: answered, its rows are dropped, and unknown, it is failed first. */
  lemma LeasedIsLoadedExactly(s: State, wid: MsgId, w: WorkerId, t: TaskId, duration: int, now: int)
    requires Enabled(s, DoLease(wid, w, t, duration, now)) && s.rows[wid].body.Decoded?
    ensures var env, n := s.rows[wid].body.env, Next(s, DoLease(wid, w, t, duration, now));
            var rid := env.requestID;
            var rows := After(Option.Some((w, wid)), Option.Some(env.globalMsgID), false);
            && t in n.tasks
            && (n.tasks[t].Loading? <==> rid in s.buffered || (rid in s.results && s.results[rid].status in {Pending, Processing}))
            && (n.tasks[t].Loading? ==> n.tasks[t] == Loading(wid, w, env))
            && (!n.tasks[t].Loading? && rid in s.results ==> n.tasks[t] == Drop(rid, rows))
            && (!n.tasks[t].Loading? && rid !in s.results ==> n.tasks[t].Settle? && n.tasks[t].after == rows && !n.tasks[t].publish)
  {
  }

  /** The rows a verdict takes with it are the leased one and its anchor. */
  lemma EndedJobsDropTheirRows(s: State, t: TaskId, ending: StreamEnding, online: bool, error: string)
    requires t in s.tasks && (s.tasks[t].Streaming? || s.tasks[t].Loading?)
    ensures s.tasks[t].Streaming? ==>
              var d := s.tasks[t];
              var n, m := Next(s, DoStreamEnd(t, ending, online)), Next(s, DoAssignFailed(t, error));
              && (t in n.tasks ==> n.tasks[t].Settle? && n.tasks[t].after == After(Option.Some((d.w, d.wid)), Option.Some(d.gid), false))
              && (t !in n.tasks <==> ending.Closed? && !online && !(d.rid in s.inflight && s.inflight[d.rid]))
              && (t !in n.tasks ==> n.stranded == s.stranded + {d.wid})
              && m.tasks[t].Settle? && m.tasks[t].after == After(Option.Some((d.w, d.wid)), Option.Some(d.gid), true)
    ensures s.tasks[t].Loading? ==>
              var d := s.tasks[t];
              var rows := After(Option.Some((d.w, d.wid)), Option.Some(d.env.globalMsgID), false);
              var n, m := Next(s, DoLoadFailed(t, error)), Next(s, DoAbort(t));
              && (n.tasks[t].Settle? <==> d.env.attempts + 1 >= s.loadAttempts)
              && (n.tasks[t].Settle? ==> n.tasks[t].after == rows && n.rows == s.rows)
              && m.tasks[t].Settle? && m.tasks[t].after == rows && m.rows == s.rows
  {
  }

  /** A keep-alive moves only the row's timeout, and a re-estimation only its queued seconds. */
  lemma TouchesExactly(s: State, wid: MsgId, w: WorkerId, until: int, queuedBits: Bits64)
    ensures var n, m := Next(s, DoExtend(wid, w, until)), Next(s, DoReestimate(wid, w, queuedBits));
            && n == s.(rows := if On(s.rows, Worker(w), wid) then s.rows[wid := s.rows[wid].(timeout := until)] else s.rows)
            && (On(s.rows, Worker(w), wid) && s.rows[wid].body.Decoded? ==>
                  m == s.(rows := s.rows[wid := s.rows[wid].(body := Decoded(s.rows[wid].body.env.(queuedBits := queuedBits)))]))
            && (!(On(s.rows, Worker(w), wid) && s.rows[wid].body.Decoded?) ==> m == s)
  {
  }

  /** A crash keeps what is on disk, and every worker row leased by then has no owner any more. */
  lemma CrashKeepsTheDisk(s: State)
    ensures var n := Next(s, DoCrash);
            && n.rows == s.rows && n.results == s.results && n.decided == s.decided && n.published == s.published
            && n.buffered == {} && n.inflight == map[] && n.tasks == map[]
            && (forall id :: id in n.stranded <==> id in s.stranded || (id in s.rows && s.rows[id].queue.Worker? && s.rows[id].received > 0))
  {
  }
}
