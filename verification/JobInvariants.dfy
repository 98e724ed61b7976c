/**
 What every run of the job protocol keeps: a job never has two leasable
 placements, retries are bounded, and nothing is published before its result is
 stored. No clause mentions a timeout, so all of it holds for arbitrary clock
 readings.
 */
module JobInvariants {
  import opened EnvelopeCodec
  import opened JobProtocol
  import opened LeaseQueue
  import opened ResultStore

  // --- Rows ---

  predicate IsGlobal(rows: Rows, id: MsgId) { id in rows && rows[id].queue == Global }

  predicate IsWorker(rows: Rows, id: MsgId) { id in rows && rows[id].queue.Worker? }

  /** Worker row `b` against the anchor it names: leased, of the same request and the same attempt. */
  predicate AnchorAgrees(rows: Rows, b: MsgId)
    requires b in rows
  {
    var a := AnchorOf(rows[b].body);
    a in rows ==> && rows[a].queue == Global
                  && rows[a].received > 0
                  && Request(rows[a]) == Request(rows[b])
                  && Attempts(rows[a]) == Attempts(rows[b])
  }

  predicate RowOk(rows: Rows, used: set<MsgId>, id: MsgId)
    requires id in rows
  {
    && id in used
    && rows[id].body.Decoded?
    && Request(rows[id]) != []
    && match rows[id].queue
       case Global => AnchorOf(rows[id].body) == []
       case Worker(_) => AnchorOf(rows[id].body) in used && AnchorAgrees(rows, id)
  }

  /** Two rows of one request are an anchor and the worker row naming it; no two worker rows name one anchor. */
  predicate PairOk(rows: Rows, a: MsgId, b: MsgId)
    requires a in rows && b in rows
  {
    && (Request(rows[a]) == Request(rows[b]) && rows[a].queue.Global? && rows[b].queue.Global? ==> a == b)
    && (Request(rows[a]) == Request(rows[b]) && rows[a].queue.Worker? && rows[b].queue.Worker? ==> a == b)
    && (Request(rows[a]) == Request(rows[b]) && rows[a].queue.Global? && rows[b].queue.Worker? ==> AnchorOf(rows[b].body) == a)
    && (rows[a].queue.Worker? && rows[b].queue.Worker? && AnchorOf(rows[a].body) == AnchorOf(rows[b].body) ==> a == b)
  }

  ghost predicate RowsOk(rows: Rows, used: set<MsgId>) {
    && [] !in used
    && (forall id :: id in rows ==> RowOk(rows, used, id))
    && (forall a, b :: a in rows && b in rows ==> PairOk(rows, a, b))
  }

  ghost predicate NoRowsOf(rows: Rows, rid: RequestId) {
    forall id :: id in rows ==> Request(rows[id]) != rid
  }

  /** No two rows of one request can both be leased, whatever the clock says. */
  lemma OneLeasablePlacement(rows: Rows, used: set<MsgId>, a: MsgId, b: MsgId, qa: QueueName, qb: QueueName, ta: int, tb: int)
    requires RowsOk(rows, used)
    requires Leasable(rows, qa, a, ta) && Leasable(rows, qb, b, tb)
    requires Request(rows[a]) == Request(rows[b])
    ensures a == b
  {
    assert PairOk(rows, a, b) && PairOk(rows, b, a);
    assert RowOk(rows, used, a) && RowOk(rows, used, b);
  }

  /** A global row waiting for placement is named by no worker row. */
  lemma WaitingRowIsUnnamed(rows: Rows, used: set<MsgId>, gid: MsgId, wid: MsgId)
    requires RowsOk(rows, used)
    requires IsGlobal(rows, gid) && rows[gid].received == 0 && IsWorker(rows, wid)
    ensures AnchorOf(rows[wid].body) != gid && Request(rows[wid]) != Request(rows[gid])
  {
    assert RowOk(rows, used, wid) && PairOk(rows, gid, wid);
  }

  // --- The table's own steps keep RowsOk ---

  lemma DroppingRowsKeeps(rows: Rows, used: set<MsgId>, rest: Rows)
    requires RowsOk(rows, used)
    requires rest.Keys <= rows.Keys && forall id :: id in rest ==> rest[id] == rows[id]
    ensures RowsOk(rest, used)
  {
    forall id | id in rest
      ensures RowOk(rest, used, id)
    {
      assert RowOk(rows, used, id);
    }
    forall a, b | a in rest && b in rest
      ensures PairOk(rest, a, b)
    {
      assert PairOk(rows, a, b);
    }
  }

  /** Nothing the invariant reads differs between the two rows, delivery count aside. */
  predicate SameIdentity(x: Row, y: Row) {
    && x.queue == y.queue
    && x.body.Decoded? == y.body.Decoded?
    && Request(x) == Request(y)
    && AnchorOf(x.body) == AnchorOf(y.body)
    && Attempts(x) == Attempts(y)
  }

  /** Rewriting one row in place keeps RowsOk when an anchor stays leased while a worker row names it. */
  lemma TouchingARowKeeps(rows: Rows, used: set<MsgId>, id: MsgId, row: Row)
    requires RowsOk(rows, used) && id in rows && SameIdentity(rows[id], row)
    requires row.queue.Global? && row.received == 0 ==> forall w :: IsWorker(rows, w) ==> AnchorOf(rows[w].body) != id
    ensures RowsOk(rows[id := row], used)
  {
    var next := rows[id := row];
    forall x | x in next
      ensures RowOk(next, used, x)
    {
      assert RowOk(rows, used, x);
      if x == id { assert RowOk(rows, used, id); }
    }
    forall a, b | a in next && b in next
      ensures PairOk(next, a, b)
    {
      assert PairOk(rows, a, b);
    }
  }

  lemma SubmittingKeeps(rows: Rows, used: set<MsgId>, id: MsgId, env: Envelope, now: int)
    requires RowsOk(rows, used) && id != [] && id !in used
    requires env.requestID != [] && env.globalMsgID == [] && NoRowsOf(rows, env.requestID)
    ensures RowsOk(Inserted(rows, id, Global, Decoded(env), env.priority, now), used + {id})
  {
    var next := Inserted(rows, id, Global, Decoded(env), env.priority, now);
    forall x | x in next
      ensures RowOk(next, used + {id}, x)
    {
      if x != id { assert RowOk(rows, used, x); }
    }
    forall a, b | a in next && b in next
      ensures PairOk(next, a, b)
    {
      if a != id && b != id { assert PairOk(rows, a, b); }
      if a != id { assert RowOk(rows, used, a); }
      if b != id { assert RowOk(rows, used, b); }
    }
  }

  lemma PlacingKeeps(rows: Rows, used: set<MsgId>, gid: MsgId, w: WorkerId, queuedBits: Bits64, id: MsgId, duration: int, now: int)
    requires RowsOk(rows, used) && gid in rows && Leasable(rows, Global, gid, now) && id != [] && id !in used
    ensures RowOk(rows, used, gid)
    ensures var env := rows[gid].body.env.(globalMsgID := gid, queuedBits := queuedBits);
            RowsOk(LeasedAndSubmitted(rows, Global, gid, duration, Worker(w), env, id, now), used + {id})
  {
    assert RowOk(rows, used, gid);
    var env := rows[gid].body.env.(globalMsgID := gid, queuedBits := queuedBits);
    var mid := Leased(rows, Global, gid, now, duration);
    TouchingARowKeeps(rows, used, gid, mid[gid]);
    var next := Inserted(mid, id, Worker(w), Decoded(env), env.priority, now);
    forall x | x in next
      ensures RowOk(next, used + {id}, x)
    {
      if x != id { assert RowOk(mid, used, x); }
    }
    forall a, b | a in next && b in next
      ensures PairOk(next, a, b)
    {
      if a != id && b != id {
        assert PairOk(mid, a, b);
      } else if a != b {
        var other := if a == id then b else a;
        assert RowOk(rows, used, other) && PairOk(rows, gid, other) && PairOk(rows, other, gid);
      }
    }
  }

  lemma MovingKeeps(rows: Rows, used: set<MsgId>, wid: MsgId, src: WorkerId, dst: WorkerId, priority: int, id: MsgId, now: int)
    requires RowsOk(rows, used) && id != [] && id !in used && Leasable(rows, Worker(src), wid, now)
    ensures RowsOk(Moved(rows, Worker(src), Worker(dst), wid, priority, id, now), used + {id})
  {
    var next := Moved(rows, Worker(src), Worker(dst), wid, priority, id, now);
    assert RowOk(rows, used, wid);
    forall x | x in next
      ensures RowOk(next, used + {id}, x)
    {
      if x != id { assert RowOk(rows, used, x); }
    }
    forall a, b | a in next && b in next
      ensures PairOk(next, a, b)
    {
      var a0, b0 := if a == id then wid else a, if b == id then wid else b;
      assert PairOk(rows, a0, b0);
    }
  }

  /** Handing a worker row back: its anchor becomes leasable again, and nothing names it any more. */
  lemma HandingBackKeeps(rows: Rows, used: set<MsgId>, wid: MsgId, w: WorkerId, now: int)
    requires RowsOk(rows, used) && On(rows, Worker(w), wid)
    ensures RowsOk(DeletedAndReleased(rows, Worker(w), wid, Global, AnchorOf(rows[wid].body), now), used)
  {
    var anchor := AnchorOf(rows[wid].body);
    var rest := Deleted(rows, Worker(w), wid);
    DroppingRowsKeeps(rows, used, rest);
    if On(rest, Global, anchor) {
      forall x | IsWorker(rest, x)
        ensures AnchorOf(rest[x].body) != anchor
      {
        assert PairOk(rows, x, wid);
      }
      TouchingARowKeeps(rest, used, anchor, rest[anchor].(received := 0, timeout := now - RELEASE_OFFSET));
    }
  }

  /** A job that loses both its rows has none left. */
  lemma BothDeletedLeavesNone(rows: Rows, used: set<MsgId>, wid: MsgId, w: WorkerId)
    requires RowsOk(rows, used) && On(rows, Worker(w), wid)
    ensures NoRowsOf(BothDeleted(rows, Worker(w), wid, Global, AnchorOf(rows[wid].body)), Request(rows[wid]))
  {
    var rest := BothDeleted(rows, Worker(w), wid, Global, AnchorOf(rows[wid].body));
    forall id | id in rest
      ensures Request(rest[id]) != Request(rows[wid])
    {
      assert PairOk(rows, id, wid);
    }
  }

  // --- Tasks ---

  /** The id was handed out, and while its row exists it is on that queue and of that request. */
  predicate Refers(s: State, id: MsgId, q: QueueName, rid: RequestId) {
    id in s.used && (id in s.rows ==> s.rows[id].queue == q && Request(s.rows[id]) == rid)
  }

  predicate AfterOk(s: State, rid: RequestId, after: After) {
    && (after.worker.Some? ==> Refers(s, after.worker.value.1, Worker(after.worker.value.0), rid))
    && (after.anchor.Some? ==> Refers(s, after.anchor.value, Global, rid))
  }

  ghost predicate TaskOk(s: State, task: Task) {
    match task
    case Loading(wid, w, env) =>
      && env.requestID in s.resubmits && env.requestID != []
      && Refers(s, wid, Worker(w), env.requestID)
      && Refers(s, env.globalMsgID, Global, env.requestID)
      && (wid in s.rows ==> AnchorOf(s.rows[wid].body) == env.globalMsgID && Attempts(s.rows[wid]) == env.attempts)
    case Streaming(wid, w, gid, rid) =>
      && rid in s.resubmits
      && Refers(s, wid, Worker(w), rid)
      && Refers(s, gid, Global, rid)
    case Settle(rid, _, after, _, _) => rid in s.resubmits && AfterOk(s, rid, after)
    case Announce(rid, after, _) => rid in s.decided && AfterOk(s, rid, after)
    case Drop(rid, after) => rid in s.decided && AfterOk(s, rid, after)
    case CancelSettle(rid) => rid in s.resubmits
    case Resubmit(env, _) =>
      && env.requestID in s.resubmits
      && env.requestID != []
      && env.globalMsgID == []
      && NoRowsOf(s.rows, env.requestID)
  }

  predicate DistinctRetries(a: Task, b: Task) {
    a.Resubmit? && b.Resubmit? ==> a.env.requestID != b.env.requestID
  }

  ghost predicate TasksOk(s: State) {
    && (forall t :: t in s.tasks ==> TaskOk(s, s.tasks[t]))
    && (forall t, u :: t in s.tasks && u in s.tasks && t != u ==> DistinctRetries(s.tasks[t], s.tasks[u]))
  }

  // --- History ---

  /** A submitted request's result: live until decided; terminal, or pruned, ever after. */
  predicate ResultOk(s: State, rid: RequestId) {
    if rid in s.decided then rid in s.results ==> IsTerminal(s.results[rid].status)
    else rid in s.results && !IsTerminal(s.results[rid].status)
  }

  ghost predicate HistoryOk(s: State) {
    && s.results.Keys <= s.resubmits.Keys
    && s.decided <= s.resubmits.Keys
    && s.published <= s.decided
    && s.inflight.Keys <= s.resubmits.Keys
    && (forall id :: id in s.rows ==> Request(s.rows[id]) in s.resubmits)
    && (forall rid :: rid in s.resubmits ==> ResultOk(s, rid))
  }

  ghost predicate Inv(s: State) {
    RowsOk(s.rows, s.used) && TasksOk(s) && HistoryOk(s)
  }

  // --- The one step that can double a job ---

  /** Another resubmission of the request is pending. */
  predicate RetryPending(s: State, t: TaskId, rid: RequestId) {
    exists u :: u in s.tasks && u != t && s.tasks[u].Resubmit? && s.tasks[u].env.requestID == rid
  }

  /**
   A stale load-failure retry of a job that lives on: a row of it, other than the anchor
   the retry deletes, is on disk, or another resubmission of it is pending.
   */
  ghost predicate Doubles(s: State, step: Step) {
    && Stale(s, step)
    && var d := s.tasks[step.t];
       || !NoRowsOf(Deleted(s.rows, Global, d.env.globalMsgID), d.env.requestID)
       || RetryPending(s, step.t, d.env.requestID)
  }

  ghost predicate NoDoubling(s: State, steps: seq<Step>)
    requires ValidRun(s, steps)
    decreases |steps|
  {
    steps == [] || (!Doubles(s, steps[0]) && NoDoubling(Next(s, steps[0]), steps[1..]))
  }

  lemma {:induction false} NoStaleRetryNeverDoubles(s: State, steps: seq<Step>)
    requires ValidRun(s, steps) && NoStaleRetry(s, steps)
    ensures NoDoubling(s, steps)
    decreases |steps|
  {
    if steps != [] { NoStaleRetryNeverDoubles(Next(s, steps[0]), steps[1..]); }
  }

  // --- How a step may change what tasks look at ---

  /** Every row left is an old one under the same identity, or has a new id. */
  ghost predicate Evolves(s: State, n: State) {
    && s.used <= n.used
    && (forall id :: id in n.rows ==> (id in s.rows && SameIdentity(s.rows[id], n.rows[id])) || (id !in s.used && id in n.used))
    && s.decided <= n.decided
    && s.resubmits.Keys <= n.resubmits.Keys
  }

  /** New rows belong to no request that is between its old rows and its resubmission. */
  ghost predicate SparesRetries(s: State, n: State) {
    forall id, t :: id in n.rows && id !in s.rows && t in n.tasks && n.tasks[t].Resubmit? ==>
                      Request(n.rows[id]) != n.tasks[t].env.requestID
  }

  lemma OldTaskStaysOk(s: State, n: State, t: TaskId)
    requires Inv(s) && Evolves(s, n) && SparesRetries(s, n)
    requires t in s.tasks && t in n.tasks && n.tasks[t] == s.tasks[t]
    ensures TaskOk(n, n.tasks[t])
  {
    var task := s.tasks[t];
    assert TaskOk(s, task);
    if task.Resubmit? {
      forall id | id in n.rows
        ensures Request(n.rows[id]) != task.env.requestID
      {
        if id in s.rows { assert RowOk(s.rows, s.used, id); }
      }
    }
  }

  /** All tasks but `t` are old ones: only `t` is left to check. */
  lemma TasksStayOk(s: State, n: State, t: TaskId)
    requires Inv(s) && Evolves(s, n) && SparesRetries(s, n)
    requires forall u :: u in n.tasks && u != t ==> u in s.tasks && n.tasks[u] == s.tasks[u]
    requires t in n.tasks ==> TaskOk(n, n.tasks[t])
    requires t in n.tasks && n.tasks[t].Resubmit? ==>
               forall u :: u in n.tasks && u != t ==> DistinctRetries(n.tasks[u], n.tasks[t])
    ensures TasksOk(n)
  {
    forall u | u in n.tasks
      ensures TaskOk(n, n.tasks[u])
    {
      if u != t { OldTaskStaysOk(s, n, u); }
    }
    forall u, v | u in n.tasks && v in n.tasks && u != v
      ensures DistinctRetries(n.tasks[u], n.tasks[v])
    {
      if u != t && v != t { assert DistinctRetries(s.tasks[u], s.tasks[v]); }
    }
  }

  lemma SameTasksStayOk(s: State, n: State)
    requires Inv(s) && Evolves(s, n) && SparesRetries(s, n) && n.tasks == s.tasks
    ensures TasksOk(n)
  {
    forall u | u in n.tasks
      ensures TaskOk(n, n.tasks[u])
    {
      OldTaskStaysOk(s, n, u);
    }
  }
}
