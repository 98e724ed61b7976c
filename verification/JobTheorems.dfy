/** One placement per job, over every run that no stale retry doubles; and where that stops, exactly. */
module JobTheorems {
  import opened EnvelopeCodec
  import opened JobExamples
  import opened JobInvariants
  import opened JobProtocol
  import opened JobSafety
  import opened LeaseQueue

  /**
   In every state reached without a doubling retry, for arbitrary clock readings: no two worker rows name
   one anchor, a global row with its delivery left is named by no worker row, each
   request has at most one global row, and at most one row that any lease can take.
   */
  lemma OnePlacementOnEveryRun(loadAttempts: nat, steps: seq<Step>, a: MsgId, b: MsgId)
    requires ValidRun(Init(loadAttempts), steps) && NoDoubling(Init(loadAttempts), steps)
    ensures var rows := Exec(Init(loadAttempts), steps).rows;
            && (IsWorker(rows, a) && IsWorker(rows, b) && AnchorOf(rows[a].body) == AnchorOf(rows[b].body) ==> a == b)
            && (IsGlobal(rows, a) && rows[a].received == 0 && IsWorker(rows, b) ==> AnchorOf(rows[b].body) != a)
            && (IsGlobal(rows, a) && IsGlobal(rows, b) && Request(rows[a]) == Request(rows[b]) ==> a == b)
            && (a in rows && b in rows && rows[a].received == 0 && rows[b].received == 0 && Request(rows[a]) == Request(rows[b]) ==> a == b)
  {
    InitHolds(loadAttempts);
    RunKeeps(Init(loadAttempts), steps);
    var s := Exec(Init(loadAttempts), steps);
    if a in s.rows && b in s.rows {
      assert PairOk(s.rows, a, b) && PairOk(s.rows, b, a);
      assert RowOk(s.rows, s.used, a) && RowOk(s.rows, s.used, b);
    }
  }

  /** A worker row and the anchor it names agree on the request and on the attempt, through every hop. */
  lemma AnchorsAgreeOnEveryRun(loadAttempts: nat, steps: seq<Step>, wid: MsgId)
    requires ValidRun(Init(loadAttempts), steps) && NoDoubling(Init(loadAttempts), steps)
    requires IsWorker(Exec(Init(loadAttempts), steps).rows, wid)
    ensures var rows := Exec(Init(loadAttempts), steps).rows;
            var anchor := AnchorOf(rows[wid].body);
            anchor in rows ==> && IsGlobal(rows, anchor) && rows[anchor].received > 0
                               && Request(rows[anchor]) == Request(rows[wid]) && Attempts(rows[anchor]) == Attempts(rows[wid])
  {
    InitHolds(loadAttempts);
    RunKeeps(Init(loadAttempts), steps);
    assert RowOk(Exec(Init(loadAttempts), steps).rows, Exec(Init(loadAttempts), steps).used, wid);
  }

  // --- A hand-back decided on a row that has moved since ---

  /** Whoever names the released anchor is the very row being deleted. */
  predicate NamesOnly(rows: Rows, g: MsgId, wid: MsgId, w: WorkerId, x: MsgId) {
    On(rows, Global, g) && IsWorker(rows, x) && AnchorOf(rows[x].body) == g ==> x == wid && On(rows, Worker(w), wid)
  }

  /**
   Deleting a worker row and releasing its anchor does not look whether the row
   was still there. It keeps one placement per job exactly when the row just
   deleted is the only one that names the anchor; a steal in between breaks it.
   */
  lemma StaleHandBackExactly(rows: Rows, used: set<MsgId>, wid: MsgId, w: WorkerId, g: MsgId, now: int)
    requires RowsOk(rows, used)
    ensures RowsOk(DeletedAndReleased(rows, Worker(w), wid, Global, g, now), used)
            <==> forall x :: x in rows ==> NamesOnly(rows, g, wid, w, x)
  {
    var rest := Deleted(rows, Worker(w), wid);
    var n := DeletedAndReleased(rows, Worker(w), wid, Global, g, now);
    DroppingRowsKeeps(rows, used, rest);
    if forall x :: x in rows ==> NamesOnly(rows, g, wid, w, x) {
      if On(rest, Global, g) {
        forall x | IsWorker(rest, x)
          ensures AnchorOf(rest[x].body) != g
        {
          assert NamesOnly(rows, g, wid, w, x);
        }
        TouchingARowKeeps(rest, used, g, n[g]);
      }
    } else {
      var x :| x in rows && !NamesOnly(rows, g, wid, w, x);
      assert x in n && AnchorOf(n[x].body) == g && n[g].received == 0;
      assert !RowOk(n, used, x);
    }
  }

  // --- A load-failure retry whose row was drained meanwhile ---

  /** The rows after an unguarded load-failure retry: both deletes, then the fresh submit. */
  function StaleRetry(rows: Rows, w: WorkerId, wid: MsgId, env: Envelope, id: MsgId, now: int): Rows {
    Inserted(BothDeleted(rows, Worker(w), wid, Global, env.globalMsgID), id, Global, Decoded(Retried(env)), env.priority, now)
  }

  /**
   The retry never looks whether its worker row is still there. It keeps one
   placement per job exactly when it is, or when nothing of the job is left but
   the anchor the retry deletes.
   */
  lemma StaleRetryExactly(s: State, t: TaskId, id: MsgId, now: int)
    requires Inv(s) && t in s.tasks && s.tasks[t].Loading? && IsFresh(s, id)
    ensures var d := s.tasks[t];
            RowsOk(StaleRetry(s.rows, d.w, d.wid, d.env, id, now), s.used + {id})
            <==> d.wid in s.rows || NoRowsOf(Deleted(s.rows, Global, d.env.globalMsgID), d.env.requestID)
  {
    var d := s.tasks[t];
    var rid := d.env.requestID;
    assert TaskOk(s, d);
    var rest := BothDeleted(s.rows, Worker(d.w), d.wid, Global, d.env.globalMsgID);
    DroppingRowsKeeps(s.rows, s.used, rest);
    if d.wid in s.rows {
      BothDeletedLeavesNone(s.rows, s.used, d.wid, d.w);
    }
    if NoRowsOf(rest, rid) {
      SubmittingKeeps(rest, s.used, id, Retried(d.env), now);
    } else {
      var other :| other in rest && Request(rest[other]) == rid;
      assert RowOk(rest, s.used, other);
      assert !PairOk(StaleRetry(s.rows, d.w, d.wid, d.env, id, now), id, other);
    }
  }

  // --- What it looks like ---

  /**
   The drain of a disconnected worker resubmits the job being loaded; when the load then
   fails with attempts left, the retry submits it again: one run to two global rows of
   one request, both waiting for placement.
   */
  lemma DrainDuringLoadSubmitsTwice(loadAttempts: nat)
    requires loadAttempts > 1
    ensures var steps := [DoDrain(W1, HOST, true, 1, 0), DoAdvance(1, G2, 0), DoLoadFailed(0, ""), DoAdvance(0, G3, 0)];
            && ValidRun(Dispatched(loadAttempts), steps)
            && var rows := Exec(Dispatched(loadAttempts), steps).rows;
               && Leasable(rows, Global, G2, 0) && Leasable(rows, Global, G3, 0)
               && Request(rows[G2]) == JOB && Request(rows[G3]) == JOB
  {
    var s, a, b := Dispatched(loadAttempts), DoDrain(W1, HOST, true, 1, 0), DoAdvance(1, G2, 0);
    var c, d := DoLoadFailed(0, ""), DoAdvance(0, G3, 0);
    var requeued := DrainedAndResubmitted(loadAttempts);
    DrainEmpties(loadAttempts);
    DrainResubmits(loadAttempts);
    assert requeued.tasks == map[0 := Loading(W1, HOST, ENV.(globalMsgID := G1))];
    assert Next(requeued, c).rows == requeued.rows;
    RunOfFour(s, a, b, c, d);
  }

  /** That retry is the step that doubles the job. */
  lemma StaleRetryDoubles(loadAttempts: nat)
    requires loadAttempts > 1
    ensures Doubles(DrainedAndResubmitted(loadAttempts), DoLoadFailed(0, ""))
  {
    var s := DrainedAndResubmitted(loadAttempts);
    assert s.tasks == map[0 := Loading(W1, HOST, ENV.(globalMsgID := G1))];
    assert G2 in Deleted(s.rows, Global, G1) && Request(s.rows[G2]) == JOB;
  }

  /**
   An eviction that found its row, then a steal of that row, then the eviction's
   transaction: the anchor is released while the stolen row still names it, and both can
   be leased.
   */
  lemma StaleEvictAfterASteal(loadAttempts: nat)
    ensures var submit, place := DoSubmit(ENV, G1, 0), DoPlace(G1, HOST, 0, W1, 10, 0);
            var steal := DoSteal(W1, HOST, PEER, W2, 0);
            && ValidRun(Init(loadAttempts), [submit, place]) && ValidRun(Init(loadAttempts), [submit, place, steal])
            && var peeked := Exec(Init(loadAttempts), [submit, place]).rows;
               var rows := Exec(Init(loadAttempts), [submit, place, steal]).rows;
               var evicted := DeletedAndReleased(rows, Worker(HOST), W1, Global, G1, 0);
               && Visible(peeked, Worker(HOST), W1, 0) && AnchorOf(peeked[W1].body) == G1
               && Leasable(evicted, Global, G1, 0) && Leasable(evicted, Worker(PEER), W2, 0)
               && Request(evicted[G1]) == Request(evicted[W2])
  {
    var s0, a, b := Init(loadAttempts), DoSubmit(ENV, G1, 0), DoPlace(G1, HOST, 0, W1, 10, 0);
    var c := DoSteal(W1, HOST, PEER, W2, 0);
    var s2 := Placed(loadAttempts);
    assert Next(Next(s0, a), b) == s2;
    RunOfTwo(s0, a, b);
    RunOfThree(s0, a, b, c);
    assert Steal(s2, W1, HOST, PEER, W2, 0).rows
        == map[G1 := s2.rows[G1], W2 := Row(Worker(PEER), Decoded(ENV.(globalMsgID := G1)), 0, 0, 0, 0)];
  }
}
