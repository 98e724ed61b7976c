/**
 The startup reap: every row past its delivery budget with an expired lease gets
 a failure result and is deleted, together with the global anchor a worker row
 names.
 */
module Sweeper {
  import opened LeaseQueue
  import opened ResultStore
  import opened Wrappers

  const ABANDONED := "task abandoned: delivered 1 of 1 times, no result reported"

  /** The request a row stands for: its envelope's, or the row's own id when that is unreadable or empty. */
  function RequestOf(id: MsgId, body: Body): RequestId {
    if body.Decoded? && body.env.requestID != [] then body.env.requestID else id
  }

  function AbandonedOn(rows: Rows, q: QueueName, now: int): set<MsgId> {
    set id | id in rows && Abandoned(rows, q, id, now)
  }

  function Requests(rows: Rows, ids: set<MsgId>): set<RequestId> {
    set id | id in ids && id in rows :: RequestOf(id, rows[id].body)
  }

  function Anchors(rows: Rows, ids: set<MsgId>): set<MsgId> {
    set id, a | id in ids && id in rows && a in AnchorTaken(rows[id]) :: a
  }

  /** The table without `ids`, and without the global rows in `anchors`. */
  function Without(rows: Rows, ids: set<MsgId>, anchors: set<MsgId>): Rows {
    map id | id in rows && id !in ids && !(id in anchors && rows[id].queue == Global) :: rows[id]
  }

  /** Every live result among `requests` failed; terminal ones and all others untouched. */
  function FailedAll(m: Results, requests: set<RequestId>, now: int): Results {
    map r | r in m :: if r in requests && !IsTerminal(m[r].status) then
                        m[r].(status := Error, error := ABANDONED, completedAt := Some(now))
                      else m[r]
  }

  function RowReaped(rows: Rows, q: QueueName, id: MsgId, body: Body): Rows {
    if q.Worker? && AnchorOf(body) != [] then BothDeleted(rows, q, id, Global, AnchorOf(body)) else Deleted(rows, q, id)
  }

  /** The anchor reaping this row takes with it. */
  function AnchorTaken(row: Row): set<MsgId> {
    if row.queue.Worker? && AnchorOf(row.body) != [] then {AnchorOf(row.body)} else {}
  }

  // --- The reap, told from the envelopes ---

  /** Row `id` stands for request `r`: its envelope names it, or it is unreadable or empty and the row has that id. */
  predicate StandsFor(row: Row, id: MsgId, r: RequestId) {
    match row.body
    case Decoded(env) => if env.requestID != [] then env.requestID == r else id == r
    case Garbage(_) => id == r
  }

  predicate IsLive(result: JobResult) { result.status == Status.Pending || result.status == Status.Processing }

  /**
   A live result some reaped row stands for is failed with the abandoned text, any other is as it was; a row is gone
   when it was reaped, or is the global row a reaped worker row's envelope names, and any other is as it was.
   */
  ghost predicate ReapedExactly(rows: Rows, results: Results, nextRows: Rows, nextResults: Results, ids: set<MsgId>, now: int) {
    && nextResults.Keys == results.Keys
    && (forall id, r :: id in ids && id in rows && StandsFor(rows[id], id, r) && r in results && IsLive(results[r]) ==>
          && nextResults[r].status == Error
          && nextResults[r].error == "task abandoned: delivered 1 of 1 times, no result reported"
          && nextResults[r].completedAt == Some(now))
    && (forall r :: r in results && (!IsLive(results[r]) || forall id :: id in ids && id in rows ==> !StandsFor(rows[id], id, r)) ==>
          nextResults[r] == results[r])
    && (forall x :: x in nextRows <==>
          x in rows && x !in ids && !(rows[x].queue == Global && exists id :: id in ids && id in rows && NamesAnchor(rows[id], x)))
    && (forall x :: x in nextRows ==> nextRows[x] == rows[x])
  }

  /** A worker row whose envelope names `anchor`. */
  predicate NamesAnchor(row: Row, anchor: MsgId) {
    row.queue.Worker? && row.body.Decoded? && anchor != [] && row.body.env.globalMsgID == anchor
  }

  lemma ReapIsExact(rows: Rows, results: Results, ids: set<MsgId>, now: int)
    ensures ReapedExactly(rows, results, Without(rows, ids, Anchors(rows, ids)), FailedAll(results, Requests(rows, ids), now), ids, now)
  {
    forall id, r | id in ids && id in rows && StandsFor(rows[id], id, r)
      ensures r in Requests(rows, ids)
    {
      assert r == RequestOf(id, rows[id].body);
    }
    forall r | r in Requests(rows, ids)
      ensures exists id :: id in ids && id in rows && StandsFor(rows[id], id, r)
    {
      var id :| id in ids && id in rows && r == RequestOf(id, rows[id].body);
      assert StandsFor(rows[id], id, r);
    }
    forall x
      ensures x in Anchors(rows, ids) <==> exists id :: id in ids && id in rows && NamesAnchor(rows[id], x)
    {
      forall id | id in ids && id in rows
        ensures x in AnchorTaken(rows[id]) <==> NamesAnchor(rows[id], x)
      {
      }
    }
  }

  lemma FailedAllComposes(m: Results, a: set<RequestId>, b: set<RequestId>, now: int)
    ensures FailedAll(FailedAll(m, a, now), b, now) == FailedAll(m, a + b, now)
  {
  }

  method ListAbandoned(table: LeaseTable, q: QueueName, now: int) returns (out: seq<(MsgId, Body)>)
    ensures forall i :: 0 <= i < |out| ==> out[i].0 in AbandonedOn(table.rows, q, now)
                                           && out[i].1 == table.rows[out[i].0].body
    ensures forall i, j :: 0 <= i < j < |out| ==> out[i].0 != out[j].0
    ensures forall id :: id in AbandonedOn(table.rows, q, now) ==> exists i :: 0 <= i < |out| && out[i].0 == id
  {
    var left := AbandonedOn(table.rows, q, now);
    ghost var all := left;
    out := [];
    while left != {}
      invariant left <= all
      invariant forall i :: 0 <= i < |out| ==> out[i].0 in all && out[i].0 !in left
                                               && out[i].1 == table.rows[out[i].0].body
      invariant forall i, j :: 0 <= i < j < |out| ==> out[i].0 != out[j].0
      invariant forall id :: id in all && id !in left ==> exists i :: 0 <= i < |out| && out[i].0 == id
      decreases left
    {
      var id :| id in left;
      ghost var was := out;
      out := out + [(id, table.rows[id].body)];
      left := left - {id};
      forall x | x in all && x !in left
        ensures exists i :: 0 <= i < |out| && out[i].0 == x
      {
        if x == id {
          assert out[|was|].0 == x;
        } else {
          var i :| 0 <= i < |was| && was[i].0 == x;
          assert out[i].0 == x;
        }
      }
    }
  }

  method ReapOne(table: LeaseTable, results: ResultTable, q: QueueName, id: MsgId, body: Body, now: int)
    modifies table, results
    ensures results.results == FailedAll(old(results.results), {RequestOf(id, body)}, now)
    ensures table.rows == RowReaped(old(table.rows), q, id, body)
    ensures var r := if body.Decoded? && body.env.requestID != [] then body.env.requestID else id;
            results.results == if r in old(results.results) && IsLive(old(results.results)[r])
                               then old(results.results)[r := JobResult(Error, old(results.results)[r].body, ABANDONED, Some(now))]
                               else old(results.results)
  {
    var requestID := id;
    var anchorID: MsgId := [];
    if body.Decoded? {
      if body.env.requestID != [] {
        requestID := body.env.requestID;
      }
      anchorID := body.env.globalMsgID;
    }
    var existing := results.Get(requestID);
    var terminal := existing.Some? && IsTerminal(existing.value.status);
    if !terminal {
      results.Fail(requestID, ABANDONED, now);
    }
    if q.Worker? && anchorID != [] {
      table.DeleteBoth(q, id, Global, anchorID);
    } else {
      table.Delete(q, id);
    }
  }

  /** The ids of the first `n` listed messages. */
  ghost function Taken(msgs: seq<(MsgId, Body)>, n: nat): set<MsgId>
    requires n <= |msgs|
  {
    set i | 0 <= i < n :: msgs[i].0
  }

  method ReapQueue(table: LeaseTable, results: ResultTable, q: QueueName, clock: int, now: int) returns (reaped: nat)
    modifies table, results
    ensures var ids := AbandonedOn(old(table.rows), q, clock);
            && reaped == |ids|
            && table.rows == Without(old(table.rows), ids, Anchors(old(table.rows), ids))
            && results.results == FailedAll(old(results.results), Requests(old(table.rows), ids), now)
            && ReapedExactly(old(table.rows), old(results.results), table.rows, results.results, ids, now)
  {
    ghost var rows0, results0 := table.rows, results.results;
    var msgs := ListAbandoned(table, q, clock);
    assert Taken(msgs, |msgs|) == AbandonedOn(rows0, q, clock);
    ReapListed(table, results, q, msgs, now);
    ReapIsExact(rows0, results0, AbandonedOn(rows0, q, clock), now);
    reaped := |msgs|;
    TakenIsCounted(msgs, |msgs|);
  }

  /** The listed rows of a queue, one after the other. */
  method ReapListed(table: LeaseTable, results: ResultTable, q: QueueName, msgs: seq<(MsgId, Body)>, now: int)
    requires forall i :: 0 <= i < |msgs| ==> On(table.rows, q, msgs[i].0) && msgs[i].1 == table.rows[msgs[i].0].body
    requires forall i, j :: 0 <= i < j < |msgs| ==> msgs[i].0 != msgs[j].0
    modifies table, results
    ensures Reaped(old(table.rows), old(results.results), table.rows, results.results, Taken(msgs, |msgs|), now)
  {
    ghost var rows0, results0 := table.rows, results.results;
    NothingReaped(rows0, results0, now);
    assert Taken(msgs, 0) == {};
    for n := 0 to |msgs|
      invariant Reaped(rows0, results0, table.rows, results.results, Taken(msgs, n), now)
    {
      var id, body := msgs[n].0, msgs[n].1;
      TakeNext(msgs, n);
      ReapsNext(rows0, results0, table.rows, results.results, Taken(msgs, n), id, now);
      ReapOne(table, results, q, id, body, now);
    }
  }

  lemma {:induction false} TakenIsCounted(msgs: seq<(MsgId, Body)>, n: nat)
    requires n <= |msgs| && forall i, j :: 0 <= i < j < |msgs| ==> msgs[i].0 != msgs[j].0
    ensures |Taken(msgs, n)| == n
  {
    if n == 0 {
      assert Taken(msgs, 0) == {};
    } else {
      TakenIsCounted(msgs, n - 1);
      TakeNext(msgs, n - 1);
    }
  }

  /** The state once the given rows have been reaped. */
  ghost predicate Reaped(rows0: Rows, results0: Results, rows: Rows, results: Results, ids: set<MsgId>, now: int) {
    rows == Without(rows0, ids, Anchors(rows0, ids)) && results == FailedAll(results0, Requests(rows0, ids), now)
  }

  lemma NothingReaped(rows: Rows, results: Results, now: int)
    ensures Reaped(rows, results, rows, results, {}, now)
  {
    assert Without(rows, {}, {}) == rows && Anchors(rows, {}) == {};
    assert FailedAll(results, {}, now) == results;
  }

  lemma ReapsNext(rows0: Rows, results0: Results, rows: Rows, results: Results, ids: set<MsgId>, id: MsgId, now: int)
    requires Reaped(rows0, results0, rows, results, ids, now) && id in rows0
    ensures var row := rows0[id];
            Reaped(rows0, results0, RowReaped(rows, row.queue, id, row.body),
                   FailedAll(results, {RequestOf(id, row.body)}, now), ids + {id}, now)
  {
    var row := rows0[id];
    NextRowReaped(rows0, ids, Anchors(rows0, ids), id);
    FailedAllComposes(results0, Requests(rows0, ids), {RequestOf(id, row.body)}, now);
    assert Requests(rows0, ids + {id}) == Requests(rows0, ids) + {RequestOf(id, row.body)};
    assert Anchors(rows0, ids + {id}) == Anchors(rows0, ids) + AnchorTaken(row);
  }

  lemma NextRowReaped(rows: Rows, ids: set<MsgId>, anchors: set<MsgId>, id: MsgId)
    requires id in rows
    ensures RowReaped(Without(rows, ids, anchors), rows[id].queue, id, rows[id].body)
            == Without(rows, ids + {id}, anchors + AnchorTaken(rows[id]))
  {
  }

  lemma TakeNext(msgs: seq<(MsgId, Body)>, n: nat)
    requires n < |msgs|
    requires forall i, j :: 0 <= i < j < |msgs| ==> msgs[i].0 != msgs[j].0
    ensures var id := msgs[n].0;
            && id !in Taken(msgs, n)
            && Taken(msgs, n + 1) == Taken(msgs, n) + {id}
  {
    var id := msgs[n].0;
    assert Taken(msgs, n + 1) == Taken(msgs, n) + {id};
  }

  // --- The whole reap ---

  /** The rows abandoned when their own queue was listed. */
  ghost predicate Doomed(rows: Rows, globalClock: int, queues: seq<WorkerId>, clocks: seq<int>, id: MsgId)
    requires |queues| == |clocks|
  {
    || Abandoned(rows, Global, id, globalClock)
    || exists k :: 0 <= k < |queues| && Abandoned(rows, Worker(queues[k]), id, clocks[k])
  }

  ghost function DoomedIds(rows: Rows, globalClock: int, queues: seq<WorkerId>, clocks: seq<int>): set<MsgId>
    requires |queues| == |clocks|
  {
    set id | id in rows && Doomed(rows, globalClock, queues, clocks, id)
  }

  /**
   Every row that was abandoned is gone, with the anchor a reaped worker row
   named; each reaped request that has a result is terminal, with results
   already terminal unchanged; and every other row and result is untouched.
   `clocks` holds one reading per worker queue, in no particular order.
   */
  method ReapAbandoned(
    table: LeaseTable, results: ResultTable, globalClock: int, queues: seq<WorkerId>, clocks: seq<int>, now: int)
    returns (total: nat)
    requires |queues| == |clocks|
    modifies table, results
    ensures var ids := DoomedIds(old(table.rows), globalClock, queues, clocks);
            && total == |ids|
            && table.rows == Without(old(table.rows), ids, Anchors(old(table.rows), ids))
            && results.results == FailedAll(old(results.results), Requests(old(table.rows), ids), now)
            && ReapedExactly(old(table.rows), old(results.results), table.rows, results.results, ids, now)
  {
    ghost var rows0, results0 := table.rows, results.results;
    total := ReapQueue(table, results, Global, globalClock, now);
    assert DoomedIds(rows0, globalClock, [], []) == AbandonedOn(rows0, Global, globalClock);
    var k := 0;
    while k < |queues|
      invariant k <= |queues|
      invariant var ids := DoomedIds(rows0, globalClock, queues[..k], clocks[..k]);
                && total == |ids|
                && table.rows == Without(rows0, ids, Anchors(rows0, ids))
                && results.results == FailedAll(results0, Requests(rows0, ids), now)
    {
      ghost var mid := table.rows;
      ghost var ids := DoomedIds(rows0, globalClock, queues[..k], clocks[..k]);
      ghost var more := AbandonedOn(mid, Worker(queues[k]), clocks[k]);
      var n := ReapQueue(table, results, Worker(queues[k]), clocks[k], now);
      total := total + n;
      OneMoreQueue(rows0, globalClock, queues, clocks, k);
      WithoutComposes(rows0, ids, more);
      FailedAllComposes(results0, Requests(rows0, ids), Requests(mid, more), now);
      k := k + 1;
    }
    assert queues[..k] == queues && clocks[..k] == clocks;
    ReapIsExact(rows0, results0, DoomedIds(rows0, globalClock, queues, clocks), now);
  }

  lemma WithoutComposes(rows: Rows, ids: set<MsgId>, more: set<MsgId>)
    requires more <= Without(rows, ids, Anchors(rows, ids)).Keys
    ensures var mid := Without(rows, ids, Anchors(rows, ids));
            && Without(mid, more, Anchors(mid, more)) == Without(rows, ids + more, Anchors(rows, ids + more))
            && Requests(rows, ids + more) == Requests(rows, ids) + Requests(mid, more)
  {
    var mid := Without(rows, ids, Anchors(rows, ids));
    assert Anchors(rows, ids + more) == Anchors(rows, ids) + Anchors(mid, more);
  }

  lemma OneMoreQueue(rows: Rows, globalClock: int, queues: seq<WorkerId>, clocks: seq<int>, k: nat)
    requires |queues| == |clocks| && k < |queues|
    ensures var ids := DoomedIds(rows, globalClock, queues[..k], clocks[..k]);
            var mid := Without(rows, ids, Anchors(rows, ids));
            var more := AbandonedOn(mid, Worker(queues[k]), clocks[k]);
            && ids !! more
            && DoomedIds(rows, globalClock, queues[..k + 1], clocks[..k + 1]) == ids + more
  {
    var ids := DoomedIds(rows, globalClock, queues[..k], clocks[..k]);
    var mid := Without(rows, ids, Anchors(rows, ids));
    var more := AbandonedOn(mid, Worker(queues[k]), clocks[k]);
    var next := DoomedIds(rows, globalClock, queues[..k + 1], clocks[..k + 1]);
    forall id | id in next
      ensures id in ids + more
    {
      if !Abandoned(rows, Global, id, globalClock) {
        var j :| 0 <= j < k + 1 && Abandoned(rows, Worker(queues[..k + 1][j]), id, clocks[..k + 1][j]);
        if j < k {
          assert Abandoned(rows, Worker(queues[..k][j]), id, clocks[..k][j]);
        }
      }
    }
    forall id | id in ids + more
      ensures id in next
    {
      if id in more {
        assert Abandoned(rows, Worker(queues[..k + 1][k]), id, clocks[..k + 1][k]);
      } else if !Abandoned(rows, Global, id, globalClock) {
        var j :| 0 <= j < k && Abandoned(rows, Worker(queues[..k][j]), id, clocks[..k][j]);
        assert Abandoned(rows, Worker(queues[..k + 1][j]), id, clocks[..k + 1][j]);
      }
    }
  }

  /**
   A job waiting on a worker queue keeps both its rows through the reap exactly
   when its anchor's lease has not expired by the clock the global queue is
   listed at: a visible anchor reads as an abandoned job.
   */
  lemma WaitingJobSurvivesExactly(
    rows: Rows, globalClock: int, queues: seq<WorkerId>, clocks: seq<int>, wid: MsgId, anchor: MsgId)
    requires |queues| == |clocks|
    requires wid in rows && rows[wid].queue.Worker? && rows[wid].received < MAX_RECEIVE
    requires anchor in rows && rows[anchor].queue == Global && rows[anchor].received >= MAX_RECEIVE
    requires forall id :: id in rows && rows[id].queue.Worker? && AnchorOf(rows[id].body) == anchor ==> id == wid
    ensures var ids := DoomedIds(rows, globalClock, queues, clocks);
            var after := Without(rows, ids, Anchors(rows, ids));
            wid in after && anchor in after <==> rows[anchor].timeout > globalClock
  {
    var ids := DoomedIds(rows, globalClock, queues, clocks);
    assert wid !in ids;
    assert anchor in ids <==> rows[anchor].timeout <= globalClock;
    assert anchor !in Anchors(rows, ids);
  }
}
