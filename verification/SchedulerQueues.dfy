/**
 The scheduler's own methods over the lease table and the result table, each proved
 to be a run of the job protocol, so that what every run keeps holds of them; and
 what a whole disconnect drain leaves behind.
 */
module SchedulerQueues {
  import opened EnvelopeCodec
  import opened JobAccounting
  import opened JobContents
  import opened JobCrashes
  import opened JobInvariants
  import opened JobProtocol
  import opened JobSafety
  import opened LeaseQueue
  import opened ResultStore
  import opened Wrappers
  import Sweeper

  // --- The scheduler over its tables ---

  class Scheduler {
    const table: LeaseTable
    const store: ResultTable
    const loadAttempts: nat
    var buffered: set<RequestId>          // requests with a replay buffer
    var inflight: map<RequestId, bool>    // in-flight records, with their cancel flag
    ghost var used: set<MsgId>
    ghost var decided: set<RequestId>
    ghost var published: set<RequestId>
    ghost var tasks: map<TaskId, Task>
    ghost var stranded: set<MsgId>
    ghost var resubmits: map<RequestId, nat>

    ghost function View(): State
      reads this, table, store
    {
      State(table.rows, used, store.results, decided, buffered, published, inflight, tasks, stranded, resubmits, loadAttempts)
    }

    constructor (loadAttempts: nat)
      ensures View() == Init(loadAttempts) && fresh(table) && fresh(store)
    {
      table := new LeaseTable();
      store := new ResultTable();
      this.loadAttempts := loadAttempts;
      buffered, inflight, used, decided, published := {}, map[], {}, {}, {};
      tasks, stranded, resubmits := map[], {}, map[];
    }

    method FailResult(rid: RequestId, error: string, now: int)
      modifies this`decided, store
      ensures View() == Decide(old(View()), rid, Fault(error), now)
    {
      decided := if rid in store.results then decided + {rid} else decided;
      store.Fail(rid, error, now);
    }

    method CompleteResult(rid: RequestId, body: Bytes, now: int)
      modifies this`decided, store
      ensures View() == Decide(old(View()), rid, Answer(body), now)
    {
      decided := if rid in store.results then decided + {rid} else decided;
      store.Complete(rid, body, now);
    }

    /** `env` is the global row's envelope as it was peeked; the row may have gone since. */
    method PlaceOnWorkerQueue(gid: MsgId, env: Envelope, w: WorkerId, queuedBits: Bits64, newId: MsgId, duration: int, now: int)
      returns (placed: bool)
      requires (gid in table.rows ==> table.rows[gid].body == Decoded(env)) && newId !in table.rows
      modifies this`used, table
      ensures View() == Place(old(View()), gid, w, queuedBits, newId, duration, now)
      ensures placed <==> Leasable(old(table.rows), Global, gid, now)
      ensures placed ==> PlacedOutcome(old(table.rows), table.rows, gid, env, w, queuedBits, newId, duration, now)
      ensures !placed ==> table.rows == old(table.rows)
    {
      var stamped := env.(globalMsgID := gid, queuedBits := queuedBits);
      placed := table.LeaseAndSubmit(Global, gid, duration, Worker(w), stamped, newId, now);
      used := if gid in table.rows then used + {newId} else used;
    }

    /** Submits a retry's envelope. */
    method Resubmit(env: Envelope, revert: bool, newId: MsgId, now: int)
      requires newId !in table.rows
      modifies this`used, this`resubmits, table, store
      ensures View() == Resubmitted(old(View()), env, revert, newId, now)
    {
      table.Submit(Global, env, newId, now);
      if revert {
        store.Pending(env.requestID);
      }
      used := used + {newId};
      resubmits := if env.requestID in resubmits then resubmits[env.requestID := resubmits[env.requestID] + 1] else resubmits;
    }

    /** Fails the job and drops both its rows. */
    method FailAndDrop(wid: MsgId, w: WorkerId, env: Envelope, error: string, now: int)
      modifies this`decided, table, store
      ensures View() == Decide(old(View()), env.requestID, Fault(error), now).(
                          rows := BothDeleted(old(table.rows), Worker(w), wid, Global, env.globalMsgID))
    {
      FailResult(env.requestID, error, now);
      table.DeleteBoth(Worker(w), wid, Global, env.globalMsgID);
    }

    /** The body of the drain's loop. */
    method DrainRow(wid: MsgId, w: WorkerId, includeLeased: bool, newId: MsgId, now: int)
      requires On(table.rows, Worker(w), wid) && newId !in table.rows
      modifies this, table, store
      ensures View() == DrainedRow(old(View()), wid, w, includeLeased, newId, now)
      ensures DrainOutcome(old(View()), View(), wid, w, includeLeased, newId, now)
    {
      DrainedRowOutcome(View(), wid, w, includeLeased, newId, now);
      DecideRow(wid, w, includeLeased, newId, now);
    }

    method DecideRow(wid: MsgId, w: WorkerId, includeLeased: bool, newId: MsgId, now: int)
      requires On(table.rows, Worker(w), wid) && newId !in table.rows
      modifies this, table, store
      ensures View() == DrainedRow(old(View()), wid, w, includeLeased, newId, now)
    {
      var row := table.rows[wid];
      var leased := row.timeout > now && row.received > 0;
      if leased && !includeLeased {
        return;
      }
      if row.body.Garbage? {
        return;
      }
      var env := row.body.env;
      if env.requestID in inflight && inflight[env.requestID] {
        FailAndDrop(wid, w, env, CANCELLED, now);
        return;
      }
      var result := store.Get(env.requestID);
      if result.Some? && IsTerminal(result.value.status) {
        table.DeleteBoth(Worker(w), wid, Global, env.globalMsgID);
        return;
      }
      if !leased {
        table.DeleteAndReleaseLease(Worker(w), wid, Global, env.globalMsgID, now);
        return;
      }
      if (env.attempts as int) + 1 >= DISCONNECT_REQUEUE_BUDGET {
        FailAndDrop(wid, w, env, "worker disconnected while the job was running", now);
        return;
      }
      var retry := env.(attempts := NextAttempt(env.attempts), globalMsgID := [], queuedBits := 0);
      table.DeleteBoth(Worker(w), wid, Global, env.globalMsgID);
      Resubmit(retry, true, newId, now);
    }

    /** The ids on a worker queue, each once: all of them, or as many as the limit allows. */
    method PeekAll(w: WorkerId, limit: nat) returns (ids: seq<MsgId>)
      ensures forall i :: 0 <= i < |ids| ==> On(table.rows, Worker(w), ids[i])
      ensures forall i, j :: 0 <= i < j < |ids| ==> ids[i] != ids[j]
      ensures |ids| <= limit && (|ids| < limit ==> forall x :: On(table.rows, Worker(w), x) ==> x in ids)
    {
      ids := [];
      var left := set id | id in table.rows && table.rows[id].queue == Worker(w);
      while left != {} && |ids| < limit
        invariant forall x :: On(table.rows, Worker(w), x) <==> x in left || x in ids
        invariant forall x :: x in ids ==> x !in left
        invariant forall i, j :: 0 <= i < j < |ids| ==> ids[i] != ids[j]
        invariant |ids| <= limit
        decreases left
      {
        var id :| id in left;
        ids, left := ids + [id], left - {id};
      }
    }

    /** Every listed row in turn; the listing is taken once, and `newIds` are the ids its resubmissions may use. */
    method DrainWorkerQueue(w: WorkerId, includeLeased: bool, newIds: seq<MsgId>, now: int) returns (ids: seq<MsgId>)
      requires |newIds| >= PEEK_ALL_LIMIT
      requires forall i :: 0 <= i < |newIds| ==> newIds[i] !in table.rows
      requires forall i, j :: 0 <= i < j < |newIds| ==> newIds[i] != newIds[j]
      modifies this, table, store
      ensures |ids| <= PEEK_ALL_LIMIT && (forall i, j :: 0 <= i < j < |ids| ==> ids[i] != ids[j])
      ensures |ids| < PEEK_ALL_LIMIT ==> forall x :: x in ids <==> On(old(table.rows), Worker(w), x)
      ensures View() == DrainedAll(old(View()), w, includeLeased, ids, newIds[..|ids|], now)
    {
      ids := PeekAll(w, PEEK_ALL_LIMIT);
      ghost var was := View();
      ghost var spare := newIds[..|ids|];
      for i := 0 to |ids|
        invariant DrainedAll(View(), w, includeLeased, ids[i..], spare[i..], now) == DrainedAll(was, w, includeLeased, ids, spare, now)
        invariant forall j :: i <= j < |ids| ==> On(table.rows, Worker(w), ids[j])
        invariant forall j :: i <= j < |newIds| ==> newIds[j] !in table.rows
      {
        DrainedAllStep(View(), w, includeLeased, ids, spare, i, now);
        DrainRow(ids[i], w, includeLeased, newIds[i], now);
      }
    }

    method CancelQueuedRow(id: MsgId, q: QueueName, now: int) returns (ok: bool)
      modifies this, table, store
      ensures ok <==> Visible(old(table.rows), q, id, now)
      ensures View() == if ok then CancelledRow(old(View()), id, q, now) else old(View())
      ensures ok ==> CancelOutcome(old(View()), View(), id, q, now)
    {
      if id !in table.rows || table.rows[id].queue != q || table.rows[id].timeout > now {
        return false;
      }
      CancelledRowOutcome(View(), id, q, now);
      var body := table.rows[id].body;
      if q.Global? || body.Garbage? || body.env.globalMsgID == [] {
        table.Delete(q, id);
      } else {
        table.DeleteBoth(q, id, Global, body.env.globalMsgID);
      }
      if body.Decoded? && body.env.requestID != [] {
        FailResult(body.env.requestID, CANCELLED, now);
        buffered := buffered - {body.env.requestID};
      }
      return true;
    }

    /** The row goes back only if it still names its anchor. */
    method EvictQueuedRowToGlobal(id: MsgId, w: WorkerId, now: int) returns (ok: bool)
      modifies this, table
      ensures ok <==> Visible(old(table.rows), Worker(w), id, now) && AnchorOf(old(table.rows)[id].body) != []
      ensures View() == if ok then Evict(old(View()), id, w, now) else old(View())
      ensures ok ==> HandsBack(old(table.rows), table.rows, Worker(w), id, Global, AnchorOf(old(table.rows[id]).body), now)
    {
      if id !in table.rows || table.rows[id].queue != Worker(w) || table.rows[id].timeout > now {
        return false;
      }
      var body := table.rows[id].body;
      if body.Garbage? || body.env.globalMsgID == [] {
        return false;
      }
      ReleasedIsHandedBack(table.rows, Worker(w), id, Global, body.env.globalMsgID, now);
      table.DeleteAndReleaseLease(Worker(w), id, Global, body.env.globalMsgID, now);
      return true;
    }

    method CleanupRows(w: WorkerId, wid: MsgId, gid: MsgId)
      requires [] !in table.rows
      modifies table
      ensures table.rows == BothDeleted(old(table.rows), Worker(w), wid, Global, gid)
    {
      if gid != [] {
        table.DeleteBoth(Worker(w), wid, Global, gid);
      } else {
        table.Delete(Worker(w), wid);
      }
    }

    /** Stores what an ended stream settles with; false leaves the job to the disconnect drain. */
    method StoreVerdict(rid: RequestId, ending: StreamEnding, wasCancelled: bool, online: bool, now: int) returns (settled: bool)
      modifies this`decided, store
      ensures var v := StreamVerdict(ending, wasCancelled, online);
              settled == v.Some? && View() == if v.Some? then Decide(old(View()), rid, v.value, now) else old(View())
    {
      match ending {
        case Terminal(body, error) =>
          if error != "" {
            FailResult(rid, if wasCancelled then CANCELLED else error, now);
          } else {
            CompleteResult(rid, body, now);
          }
        case Closed =>
          if wasCancelled {
            FailResult(rid, CANCELLED, now);
          } else if !online {
            return false;
          } else {
            FailResult(rid, "worker stream closed before terminal frame", now);
          }
      }
      return true;
    }

    /** The pump past its last chunk. */
    method FinishStream(ghost t: TaskId, wid: MsgId, w: WorkerId, gid: MsgId, rid: RequestId, ending: StreamEnding, online: bool, now: int)
      requires t in tasks && tasks[t] == Streaming(wid, w, gid, rid) && [] !in table.rows
      modifies this, table, store
      ensures View() == StreamFinished(old(View()), t, ending, online, now)
      ensures StreamOutcome(old(View()), View(), wid, w, gid, rid, ending, online, now)
    {
      StreamFinishedOutcome(View(), t, ending, online, now);
      var wasCancelled := TakeRecord(rid);
      tasks := tasks - {t};
      EndStream(wid, w, gid, rid, ending, wasCancelled, online, now);
    }

    /** Drops the in-flight record and answers its cancel flag. */
    method TakeRecord(rid: RequestId) returns (wasCancelled: bool)
      modifies this`inflight
      ensures wasCancelled == CancelRecorded(old(View()), rid) && inflight == old(inflight) - {rid}
    {
      wasCancelled := rid in inflight && inflight[rid];
      inflight := inflight - {rid};
    }

    method EndStream(wid: MsgId, w: WorkerId, gid: MsgId, rid: RequestId, ending: StreamEnding, wasCancelled: bool, online: bool, now: int)
      requires [] !in table.rows
      modifies this`decided, this`stranded, this`published, table, store
      ensures var v := StreamVerdict(ending, wasCancelled, online);
              View() == if v.Some? then Concluded(old(View()), rid, v.value, w, wid, gid, now)
                        else old(View()).(stranded := old(stranded) + {wid})
    {
      var settled := StoreVerdict(rid, ending, wasCancelled, online, now);
      if !settled {
        stranded := stranded + {wid};
        return;
      }
      published := published + {rid};
      CleanupRows(w, wid, gid);
    }

    /** What a dispatch does when its model load fails. */
    method HandleLoadFailure(ghost t: TaskId, wid: MsgId, w: WorkerId, env: Envelope, error: string, newId: MsgId, now: int)
      returns (retried: bool)
      requires t in tasks && tasks[t] == Loading(wid, w, env) && [] !in table.rows && newId !in table.rows
      modifies this, table, store
      ensures View() == LoadFailureHandled(old(View()), t, error, newId, now)
      ensures retried <==> (env.attempts as int) + 1 < loadAttempts
      ensures LoadOutcome(old(View()), View(), wid, w, env, error, newId, now)
    {
      LoadFailureOutcome(View(), t, error, newId, now);
      tasks := tasks - {t};
      if (env.attempts as int) + 1 >= loadAttempts {
        FailResult(env.requestID, error, now);
        published := published + {env.requestID};
        CleanupRows(w, wid, env.globalMsgID);
        return false;
      }
      CleanupRows(w, wid, env.globalMsgID);
      Resubmit(env.(attempts := NextAttempt(env.attempts), globalMsgID := [], queuedBits := 0), false, newId, now);
      return true;
    }
  }

  const PEEK_ALL_LIMIT: nat := 256

  // --- What the methods come to ---

  /** The drain of one row, carried through to its end. */
  function DrainedRow(s: State, wid: MsgId, w: WorkerId, includeLeased: bool, newId: MsgId, now: int): State
    requires On(s.rows, Worker(w), wid)
  {
    var row := s.rows[wid];
    var rid, anchor := Request(row), AnchorOf(row.body);
    var dropped := BothDeleted(s.rows, Worker(w), wid, Global, anchor);
    match DrainDecision(s, row, includeLeased, now)
    case Leave => s
    case HandBack => s.(rows := DeletedAndReleased(s.rows, Worker(w), wid, Global, anchor, now))
    case Discard => s.(rows := dropped)
    case Finish(error) => Decide(s, rid, Fault(error), now).(rows := dropped)
    case Retry => Resubmitted(s.(rows := dropped), Retried(row.body.env), true, newId, now)
  }

  /** The fresh global row of a retry, with its result back to pending when asked. */
  function Resubmitted(s: State, env: Envelope, revert: bool, newId: MsgId, now: int): State {
    s.(rows := Inserted(s.rows, newId, Global, Decoded(env), env.priority, now),
       used := s.used + {newId},
       resubmits := if env.requestID in s.resubmits then s.resubmits[env.requestID := s.resubmits[env.requestID] + 1]
                    else s.resubmits,
       results := if revert then Flipped(s.results, env.requestID, Processing, Pending) else s.results)
  }

  /** An operator's cancel of a queued row, carried through. */
  function CancelledRow(s: State, id: MsgId, q: QueueName, now: int): State
    requires id in s.rows
  {
    var row := s.rows[id];
    var anchor := AnchorOf(row.body);
    var n := s.(rows := if q.Global? || anchor == [] then Deleted(s.rows, q, id) else BothDeleted(s.rows, q, id, Global, anchor));
    if Request(row) == [] then n
    else Decide(n, Request(row), Fault(CANCELLED), now).(buffered := s.buffered - {Request(row)})
  }

  /** A job's last words: the result, the terminal frame, then the rows. */
  function Concluded(s: State, rid: RequestId, v: Verdict, w: WorkerId, wid: MsgId, gid: MsgId, now: int): State {
    Decide(s, rid, v, now).(published := s.published + {rid}, rows := BothDeleted(s.rows, Worker(w), wid, Global, gid))
  }

  /** The end of a stream, carried through. */
  function StreamFinished(s: State, t: TaskId, ending: StreamEnding, online: bool, now: int): State
    requires t in s.tasks && s.tasks[t].Streaming?
  {
    var d := s.tasks[t];
    var n := s.(inflight := s.inflight - {d.rid}, tasks := s.tasks - {t});
    match StreamVerdict(ending, CancelRecorded(s, d.rid), online)
    case Some(v) => Concluded(n, d.rid, v, d.w, d.wid, d.gid, now)
    case None => n.(stranded := s.stranded + {d.wid})
  }

  /** A failed model load, carried through: one more attempt, or the end of the job. */
  function LoadFailureHandled(s: State, t: TaskId, error: string, newId: MsgId, now: int): State
    requires t in s.tasks && s.tasks[t].Loading?
  {
    var d := s.tasks[t];
    var n, gid := s.(tasks := s.tasks - {t}), d.env.globalMsgID;
    if RetryLeft(s, d.env) then
      Resubmitted(n.(rows := BothDeleted(s.rows, Worker(d.w), d.wid, Global, gid)), Retried(d.env), false, newId, now)
    else Concluded(n, d.env.requestID, Fault(error), d.w, d.wid, gid, now)
  }

  // --- What that leaves, field by field ---

  /** The worker row and the anchor are gone; no other row differs. */
  ghost predicate RowsGone(rows: Rows, next: Rows, w: WorkerId, wid: MsgId, anchor: MsgId) {
    Drops(rows, next, Worker(w), wid, Global, anchor)
  }

  ghost predicate FailedWith(m: Results, n: Results, rid: RequestId, text: string, now: int) {
    OnlyChanges(m, n, rid) && (rid in m ==> n[rid].status == Error && n[rid].error == text && n[rid].completedAt == Some(now))
  }

  ghost predicate AnsweredWith(m: Results, n: Results, rid: RequestId, body: Bytes, now: int) {
    OnlyChanges(m, n, rid) && (rid in m ==> n[rid].status == Done && n[rid].body == body && n[rid].completedAt == Some(now))
  }

  /** A result being processed is pending again; no other differs. */
  ghost predicate Reverted(m: Results, n: Results, rid: RequestId) {
    OnlyChanges(m, n, rid) && (rid in m ==> n[rid] == m[rid].(status := if m[rid].status == Processing then Pending else m[rid].status))
  }

  predicate Answered(m: Results, rid: RequestId) { rid in m && (m[rid].status == Done || m[rid].status == Error) }

  predicate Flagged(s: State, rid: RequestId) { rid in s.inflight && s.inflight[rid] }

  /** The same job, one attempt on, with no anchor and no queued seconds. */
  predicate RetryOf(was: Envelope, env: Envelope) {
    SameJob(was, env) && env.attempts == (was.attempts + 1) % 256 && env.globalMsgID == [] && env.queuedBits == 0
  }

  /** The retry waits on the global queue, never leased, in its job's priority. */
  ghost predicate RetryWaits(rows: Rows, id: MsgId, was: Envelope, now: int) {
    && id in rows && rows[id].queue == Global && rows[id].received == 0 && rows[id].timeout == now && rows[id].created == now
    && rows[id].priority == was.priority && rows[id].body.Decoded? && RetryOf(was, rows[id].body.env)
  }

  /** The anchor leased, and a worker row of the same job naming it. */
  ghost predicate PlacedOutcome(
    rows: Rows, next: Rows, gid: MsgId, env: Envelope, w: WorkerId, queuedBits: Bits64, id: MsgId, duration: int, now: int)
  {
    && next.Keys == rows.Keys + {id} && gid in rows && id in next && gid in next
    && (forall x :: x in rows && x != gid && x != id ==> next[x] == rows[x])
    && next[gid] == rows[gid].(received := 1, timeout := now + duration)
    && next[id].queue == Worker(w) && next[id].received == 0 && next[id].timeout == now && next[id].created == now
    && next[id].priority == env.priority && next[id].body.Decoded?
    && var e := next[id].body.env;
       SameJob(env, e) && e.attempts == env.attempts && e.globalMsgID == gid && e.queuedBits == queuedBits
  }

  ghost predicate DrainOutcome(s: State, n: State, wid: MsgId, w: WorkerId, includeLeased: bool, newId: MsgId, now: int)
    requires wid in s.rows
  {
    var row := s.rows[wid];
    var open := row.timeout > now && row.received > 0;
    if row.body.Garbage? || (open && !includeLeased) then n == s
    else
      var env := row.body.env;
      var rid, anchor := env.requestID, env.globalMsgID;
      if Flagged(s, rid) then
        RowsGone(s.rows, n.rows, w, wid, anchor) && FailedWith(s.results, n.results, rid, "cancelled by operator", now)
      else if Answered(s.results, rid) then RowsGone(s.rows, n.rows, w, wid, anchor) && n.results == s.results
      else if !open then HandsBack(s.rows, n.rows, Worker(w), wid, Global, anchor, now) && n.results == s.results
      else if env.attempts >= 2 then
        && RowsGone(s.rows, n.rows, w, wid, anchor)
        && FailedWith(s.results, n.results, rid, "worker disconnected while the job was running", now)
      else
        && RowsGone(s.rows, n.rows - {newId}, w, wid, anchor) && RetryWaits(n.rows, newId, env, now)
        && Reverted(s.results, n.results, rid)
  }

  lemma RecordedOutcome(m: Results, rid: RequestId, text: string, body: Bytes, now: int)
    ensures FailedWith(m, Failed(m, rid, text, now), rid, text, now)
    ensures AnsweredWith(m, Completed(m, rid, body, now), rid, body, now)
  {
  }

  lemma ResubmittedOutcome(s: State, was: Envelope, revert: bool, newId: MsgId, now: int)
    requires newId !in s.rows
    ensures var n := Resubmitted(s, Retried(was), revert, newId, now);
            && n.rows - {newId} == s.rows && RetryWaits(n.rows, newId, was, now)
            && if revert then Reverted(s.results, n.results, was.requestID) else n.results == s.results
  {
  }

  lemma DrainEndsRow(s: State, wid: MsgId, w: WorkerId, includeLeased: bool, newId: MsgId, now: int)
    requires On(s.rows, Worker(w), wid) && newId !in s.rows
    requires var a := DrainDecision(s, s.rows[wid], includeLeased, now); a.Leave? || a.Finish? || a.Discard?
    ensures DrainOutcome(s, DrainedRow(s, wid, w, includeLeased, newId, now), wid, w, includeLeased, newId, now)
  {
    if s.rows[wid].body.Decoded? {
      var env := s.rows[wid].body.env;
      BothDeletedDrops(s.rows, Worker(w), wid, Global, env.globalMsgID);
      RecordedOutcome(s.results, env.requestID, "cancelled by operator", [], now);
      RecordedOutcome(s.results, env.requestID, "worker disconnected while the job was running", [], now);
    }
  }

  lemma DrainPassesRowOn(s: State, wid: MsgId, w: WorkerId, includeLeased: bool, newId: MsgId, now: int)
    requires On(s.rows, Worker(w), wid) && newId !in s.rows
    requires var a := DrainDecision(s, s.rows[wid], includeLeased, now); a.HandBack? || a.Retry?
    ensures DrainOutcome(s, DrainedRow(s, wid, w, includeLeased, newId, now), wid, w, includeLeased, newId, now)
  {
    var env := s.rows[wid].body.env;
    if DrainDecision(s, s.rows[wid], includeLeased, now).HandBack? {
      ReleasedIsHandedBack(s.rows, Worker(w), wid, Global, env.globalMsgID, now);
    } else {
      BothDeletedDrops(s.rows, Worker(w), wid, Global, env.globalMsgID);
      ResubmittedOutcome(s.(rows := BothDeleted(s.rows, Worker(w), wid, Global, env.globalMsgID)), env, true, newId, now);
    }
  }

  lemma DrainedRowOutcome(s: State, wid: MsgId, w: WorkerId, includeLeased: bool, newId: MsgId, now: int)
    requires On(s.rows, Worker(w), wid) && newId !in s.rows
    ensures DrainOutcome(s, DrainedRow(s, wid, w, includeLeased, newId, now), wid, w, includeLeased, newId, now)
  {
    var a := DrainDecision(s, s.rows[wid], includeLeased, now);
    if a.HandBack? || a.Retry? {
      DrainPassesRowOn(s, wid, w, includeLeased, newId, now);
    } else {
      DrainEndsRow(s, wid, w, includeLeased, newId, now);
    }
  }

  /** The row and, of a worker queue, its anchor are gone; a job it names is failed and its buffer dropped. */
  ghost predicate CancelOutcome(s: State, n: State, id: MsgId, q: QueueName, now: int)
    requires id in s.rows
  {
    var body := s.rows[id].body;
    var anchor := if q.Worker? && body.Decoded? then body.env.globalMsgID else [];
    var rid := if body.Decoded? then body.env.requestID else [];
    && (forall x :: x in n.rows <==> && x in s.rows && !(x == id && s.rows[x].queue == q)
                                     && !(anchor != [] && x == anchor && s.rows[x].queue == Global))
    && (forall x :: x in n.rows ==> n.rows[x] == s.rows[x])
    && if rid == [] then n.results == s.results && n.buffered == s.buffered
       else FailedWith(s.results, n.results, rid, "cancelled by operator", now) && n.buffered == s.buffered - {rid}
  }

  lemma CancelledRowOutcome(s: State, id: MsgId, q: QueueName, now: int)
    requires On(s.rows, q, id)
    ensures CancelOutcome(s, CancelledRow(s, id, q, now), id, q, now)
  {
  }

  /** A verdict stored and published and the rows gone, or the job left as it was for the drain. */
  ghost predicate StreamOutcome(
    s: State, n: State, wid: MsgId, w: WorkerId, gid: MsgId, rid: RequestId, ending: StreamEnding, online: bool, now: int)
  {
    && n.inflight == s.inflight - {rid}
    && if ending.Closed? && !Flagged(s, rid) && !online then
         n.rows == s.rows && n.results == s.results && n.published == s.published && n.stranded == s.stranded + {wid}
       else
         && RowsGone(s.rows, n.rows, w, wid, gid) && n.published == s.published + {rid}
         && if ending.Closed? then
              FailedWith(s.results, n.results, rid,
                         if Flagged(s, rid) then "cancelled by operator" else "worker stream closed before terminal frame", now)
            else if ending.error == "" then AnsweredWith(s.results, n.results, rid, ending.body, now)
            else FailedWith(s.results, n.results, rid, if Flagged(s, rid) then "cancelled by operator" else ending.error, now)
  }

  lemma StreamFinishedOutcome(s: State, t: TaskId, ending: StreamEnding, online: bool, now: int)
    requires t in s.tasks && s.tasks[t].Streaming?
    ensures var d := s.tasks[t];
            StreamOutcome(s, StreamFinished(s, t, ending, online, now), d.wid, d.w, d.gid, d.rid, ending, online, now)
  {
    var d := s.tasks[t];
    BothDeletedDrops(s.rows, Worker(d.w), d.wid, Global, d.gid);
    match StreamVerdict(ending, CancelRecorded(s, d.rid), online)
    case Some(Answer(body)) => RecordedOutcome(s.results, d.rid, "", body, now);
    case Some(Fault(error)) => RecordedOutcome(s.results, d.rid, error, [], now);
    case None =>
  }

  /** One attempt more of the same job, or its end with the load's own error. */
  ghost predicate LoadOutcome(s: State, n: State, wid: MsgId, w: WorkerId, env: Envelope, error: string, newId: MsgId, now: int) {
    if env.attempts + 1 < s.loadAttempts then
      && RowsGone(s.rows, n.rows - {newId}, w, wid, env.globalMsgID) && RetryWaits(n.rows, newId, env, now)
      && n.results == s.results && n.published == s.published
    else
      && RowsGone(s.rows, n.rows, w, wid, env.globalMsgID) && n.published == s.published + {env.requestID}
      && FailedWith(s.results, n.results, env.requestID, error, now)
  }

  lemma LoadFailureOutcome(s: State, t: TaskId, error: string, newId: MsgId, now: int)
    requires t in s.tasks && s.tasks[t].Loading? && newId !in s.rows
    ensures var d := s.tasks[t];
            LoadOutcome(s, LoadFailureHandled(s, t, error, newId, now), d.wid, d.w, d.env, error, newId, now)
  {
    var d := s.tasks[t];
    BothDeletedDrops(s.rows, Worker(d.w), d.wid, Global, d.env.globalMsgID);
    RecordedOutcome(s.results, d.env.requestID, error, [], now);
    ResubmittedOutcome(s.(tasks := s.tasks - {t}, rows := BothDeleted(s.rows, Worker(d.w), d.wid, Global, d.env.globalMsgID)), d.env, false, newId, now);
  }

  function DrainSteps(s: State, wid: MsgId, w: WorkerId, includeLeased: bool, t: TaskId, newId: MsgId, now: int): seq<Step>
    requires On(s.rows, Worker(w), wid)
  {
    var first, next := DoDrain(wid, w, includeLeased, t, now), DoAdvance(t, newId, now);
    match DrainDecision(s, s.rows[wid], includeLeased, now)
    case Leave => [first]
    case HandBack => [first]
    case Discard => [first, next]
    case Finish(_) => [first, next, next]
    case Retry => [first, next]
  }

  lemma DrainedRowIsARun(s: State, wid: MsgId, w: WorkerId, includeLeased: bool, t: TaskId, newId: MsgId, now: int)
    requires On(s.rows, Worker(w), wid) && t !in s.tasks && IsFresh(s, newId)
    ensures var steps := DrainSteps(s, wid, w, includeLeased, t, newId, now);
            ValidRun(s, steps) && Exec(s, steps) == DrainedRow(s, wid, w, includeLeased, newId, now)
  {
    var action := DrainDecision(s, s.rows[wid], includeLeased, now);
    if action.Discard? {
      DiscardIsARun(s, wid, w, includeLeased, t, newId, now);
    } else if action.Finish? {
      FinishedDrainIsARun(s, wid, w, includeLeased, t, newId, now);
    } else if action.Retry? {
      RetryIsARun(s, wid, w, includeLeased, t, newId, now);
    } else {
      Prepend(s, DoDrain(wid, w, includeLeased, t, now), []);
    }
  }

  lemma DiscardIsARun(s: State, wid: MsgId, w: WorkerId, includeLeased: bool, t: TaskId, newId: MsgId, now: int)
    requires On(s.rows, Worker(w), wid) && t !in s.tasks
    requires DrainDecision(s, s.rows[wid], includeLeased, now).Discard?
    ensures var steps := [DoDrain(wid, w, includeLeased, t, now), DoAdvance(t, newId, now)];
            ValidRun(s, steps) && Exec(s, steps) == DrainedRow(s, wid, w, includeLeased, newId, now)
  {
    var rid, after := Request(s.rows[wid]), RowsOf(w, wid, AnchorOf(s.rows[wid].body));
    var m := s.(tasks := s.tasks[t := Drop(rid, after)]);
    DropIsARun(m, t, rid, after, newId, now);
    Prepend(s, DoDrain(wid, w, includeLeased, t, now), [DoAdvance(t, newId, now)]);
    assert m.tasks - {t} == s.tasks;
  }

  lemma FinishedDrainIsARun(s: State, wid: MsgId, w: WorkerId, includeLeased: bool, t: TaskId, newId: MsgId, now: int)
    requires On(s.rows, Worker(w), wid) && t !in s.tasks
    requires DrainDecision(s, s.rows[wid], includeLeased, now).Finish?
    ensures var c := DoAdvance(t, newId, now);
            var steps := [DoDrain(wid, w, includeLeased, t, now), c, c];
            ValidRun(s, steps) && Exec(s, steps) == DrainedRow(s, wid, w, includeLeased, newId, now)
  {
    var rid, after := Request(s.rows[wid]), RowsOf(w, wid, AnchorOf(s.rows[wid].body));
    var error := DrainDecision(s, s.rows[wid], includeLeased, now).error;
    var c, m := DoAdvance(t, newId, now), s.(tasks := s.tasks[t := Settle(rid, Fault(error), after, false, false)]);
    FinishIsARun(m, t, rid, error, after, newId, now);
    Prepend(s, DoDrain(wid, w, includeLeased, t, now), [c, c]);
    assert m.tasks - {t} == s.tasks;
  }

  lemma RetryIsARun(s: State, wid: MsgId, w: WorkerId, includeLeased: bool, t: TaskId, newId: MsgId, now: int)
    requires On(s.rows, Worker(w), wid) && t !in s.tasks && IsFresh(s, newId)
    requires DrainDecision(s, s.rows[wid], includeLeased, now).Retry?
    ensures var steps := [DoDrain(wid, w, includeLeased, t, now), DoAdvance(t, newId, now)];
            ValidRun(s, steps) && Exec(s, steps) == DrainedRow(s, wid, w, includeLeased, newId, now)
  {
    var env := s.rows[wid].body.env;
    var m := s.(rows := BothDeleted(s.rows, Worker(w), wid, Global, env.globalMsgID),
                tasks := s.tasks[t := Resubmit(Retried(env), true)]);
    ResubmitIsARun(m, t, Retried(env), true, newId, now);
    Prepend(s, DoDrain(wid, w, includeLeased, t, now), [DoAdvance(t, newId, now)]);
    assert m.tasks - {t} == s.tasks;
  }

  lemma DropIsARun(s: State, t: TaskId, rid: RequestId, after: After, id: MsgId, now: int)
    requires t in s.tasks && s.tasks[t] == Drop(rid, after) && !after.finish
    ensures ValidRun(s, [DoAdvance(t, id, now)])
    ensures Exec(s, [DoAdvance(t, id, now)]) == s.(rows := RowsDropped(s.rows, after), tasks := s.tasks - {t})
  {
    Prepend(s, DoAdvance(t, id, now), []);
  }

  lemma FinishIsARun(s: State, t: TaskId, rid: RequestId, error: string, after: After, id: MsgId, now: int)
    requires t in s.tasks && s.tasks[t] == Settle(rid, Fault(error), after, false, false) && !after.finish
    ensures var c := DoAdvance(t, id, now);
            && ValidRun(s, [c, c])
            && Exec(s, [c, c]) == Decide(s, rid, Fault(error), now).(rows := RowsDropped(s.rows, after), tasks := s.tasks - {t})
  {
    var c := DoAdvance(t, id, now);
    var m := Next(s, c);
    assert m == Decide(s, rid, Fault(error), now).(tasks := s.tasks[t := Drop(rid, after)]);
    DropIsARun(m, t, rid, after, id, now);
    Prepend(s, c, [c]);
    assert [c] + [c] == [c, c];
    assert s.tasks[t := Drop(rid, after)] - {t} == s.tasks - {t};
  }

  lemma ResubmitIsARun(s: State, t: TaskId, env: Envelope, revert: bool, id: MsgId, now: int)
    requires t in s.tasks && s.tasks[t] == Resubmit(env, revert) && IsFresh(s, id)
    ensures ValidRun(s, [DoAdvance(t, id, now)])
    ensures Exec(s, [DoAdvance(t, id, now)]) == Resubmitted(s, env, revert, id, now).(tasks := s.tasks - {t})
  {
    Prepend(s, DoAdvance(t, id, now), []);
  }

  lemma CancelledRowIsARun(s: State, id: MsgId, q: QueueName, t: TaskId, now: int)
    requires Visible(s.rows, q, id, now) && t !in s.tasks
    ensures var steps := [DoCancelQueued(id, q, t, now)] + if Request(s.rows[id]) == [] then [] else [DoAdvance(t, [], now)];
            ValidRun(s, steps) && Exec(s, steps) == CancelledRow(s, id, q, now)
  {
    var m := CancelQueued(s, id, q, t);
    if Request(s.rows[id]) == [] {
      Prepend(s, DoCancelQueued(id, q, t, now), []);
    } else {
      Prepend(m, DoAdvance(t, [], now), []);
      Prepend(s, DoCancelQueued(id, q, t, now), [DoAdvance(t, [], now)] + []);
      assert m.tasks - {t} == s.tasks;
    }
  }

  /** Settling with the frame published, in its three steps. */
  lemma ConcludedIsARun(s: State, t: TaskId, rid: RequestId, v: Verdict, w: WorkerId, wid: MsgId, gid: MsgId, id: MsgId, now: int)
    requires t in s.tasks && s.tasks[t] == Settle(rid, v, RowsOf(w, wid, gid), true, false)
    ensures var c := DoAdvance(t, id, now);
            && ValidRun(s, [c, c, c])
            && Exec(s, [c, c, c]) == Concluded(s, rid, v, w, wid, gid, now).(tasks := s.tasks - {t})
  {
    var c, after := DoAdvance(t, id, now), RowsOf(w, wid, gid);
    var m := Decide(s, rid, v, now).(tasks := s.tasks[t := Announce(rid, after, false)]);
    var k := m.(published := s.published + {rid}, tasks := m.tasks[t := Drop(rid, after)]);
    DropIsARun(k, t, rid, after, id, now);
    Prepend(m, c, [c]);
    Prepend(s, c, [c] + [c]);
    assert [c] + ([c] + [c]) == [c, c, c];
    assert k.tasks - {t} == s.tasks - {t};
  }

  function StreamSteps(s: State, t: TaskId, ending: StreamEnding, online: bool, now: int): seq<Step>
    requires t in s.tasks && s.tasks[t].Streaming?
  {
    var first, c := DoStreamEnd(t, ending, online), DoAdvance(t, [], now);
    if StreamVerdict(ending, CancelRecorded(s, s.tasks[t].rid), online).None? then [first] else [first] + [c, c, c]
  }

  lemma StreamFinishedIsARun(s: State, t: TaskId, ending: StreamEnding, online: bool, now: int)
    requires t in s.tasks && s.tasks[t].Streaming?
    ensures var steps := StreamSteps(s, t, ending, online, now);
            ValidRun(s, steps) && Exec(s, steps) == StreamFinished(s, t, ending, online, now)
  {
    if StreamVerdict(ending, CancelRecorded(s, s.tasks[t].rid), online).None? {
      Prepend(s, DoStreamEnd(t, ending, online), []);
    } else {
      StreamVerdictIsARun(s, t, ending, online, now);
    }
  }

  lemma StreamVerdictIsARun(s: State, t: TaskId, ending: StreamEnding, online: bool, now: int)
    requires t in s.tasks && s.tasks[t].Streaming?
    requires StreamVerdict(ending, CancelRecorded(s, s.tasks[t].rid), online).Some?
    ensures var c := DoAdvance(t, [], now);
            var steps := [DoStreamEnd(t, ending, online)] + [c, c, c];
            ValidRun(s, steps) && Exec(s, steps) == StreamFinished(s, t, ending, online, now)
  {
    var d, c := s.tasks[t], DoAdvance(t, [], now);
    var v := StreamVerdict(ending, CancelRecorded(s, d.rid), online).value;
    var m := s.(inflight := s.inflight - {d.rid}, tasks := s.tasks[t := Settle(d.rid, v, RowsOf(d.w, d.wid, d.gid), true, false)]);
    ConcludedIsARun(m, t, d.rid, v, d.w, d.wid, d.gid, [], now);
    Prepend(s, DoStreamEnd(t, ending, online), [c, c, c]);
    assert m.tasks - {t} == s.tasks - {t};
  }

  function LoadFailureSteps(s: State, t: TaskId, error: string, newId: MsgId, now: int): seq<Step>
    requires t in s.tasks && s.tasks[t].Loading?
  {
    var first, c := DoLoadFailed(t, error), DoAdvance(t, newId, now);
    if RetryLeft(s, s.tasks[t].env) then [first] + [c] else [first] + [c, c, c]
  }

  /** A run of the protocol, whether or not the retry's worker row is still there. */
  lemma LoadFailureIsARun(s: State, t: TaskId, error: string, newId: MsgId, now: int)
    requires t in s.tasks && s.tasks[t].Loading? && IsFresh(s, newId)
    ensures var steps := LoadFailureSteps(s, t, error, newId, now);
            ValidRun(s, steps) && Exec(s, steps) == LoadFailureHandled(s, t, error, newId, now)
  {
    if RetryLeft(s, s.tasks[t].env) {
      LoadRetryIsARun(s, t, error, newId, now);
    } else {
      LoadEndIsARun(s, t, error, newId, now);
    }
  }

  lemma LoadRetryIsARun(s: State, t: TaskId, error: string, newId: MsgId, now: int)
    requires t in s.tasks && s.tasks[t].Loading? && IsFresh(s, newId) && RetryLeft(s, s.tasks[t].env)
    ensures var steps := [DoLoadFailed(t, error)] + [DoAdvance(t, newId, now)];
            ValidRun(s, steps) && Exec(s, steps) == LoadFailureHandled(s, t, error, newId, now)
  {
    var m := LoadFailed(s, t, error);
    ResubmitIsARun(m, t, Retried(s.tasks[t].env), false, newId, now);
    Prepend(s, DoLoadFailed(t, error), [DoAdvance(t, newId, now)]);
    assert m.tasks - {t} == s.tasks - {t};
  }

  lemma LoadEndIsARun(s: State, t: TaskId, error: string, newId: MsgId, now: int)
    requires t in s.tasks && s.tasks[t].Loading? && !RetryLeft(s, s.tasks[t].env)
    ensures var c := DoAdvance(t, newId, now);
            var steps := [DoLoadFailed(t, error)] + [c, c, c];
            ValidRun(s, steps) && Exec(s, steps) == LoadFailureHandled(s, t, error, newId, now)
  {
    var d, c, m := s.tasks[t], DoAdvance(t, newId, now), LoadFailed(s, t, error);
    ConcludedIsARun(m, t, d.env.requestID, Fault(error), d.w, d.wid, d.env.globalMsgID, newId, now);
    Prepend(s, DoLoadFailed(t, error), [c, c, c]);
    assert m.tasks - {t} == s.tasks - {t};
  }

  /** The reap of one row, carried through. */
  function ReapedRow(s: State, id: MsgId, q: QueueName, now: int): State
    requires id in s.rows
  {
    var rid := Sweeper.RequestOf(id, s.rows[id].body);
    s.(rows := Sweeper.RowReaped(s.rows, q, id, s.rows[id].body),
       results := Sweeper.FailedAll(s.results, {rid}, now),
       decided := if rid in s.results && !TerminalIn(s.results, rid) then s.decided + {rid} else s.decided)
  }

  lemma ReapTaskDrops(s: State, id: MsgId, q: QueueName)
    requires On(s.rows, q, id)
    ensures var task := ReapOf(s, id, q);
            && task.rid == Sweeper.RequestOf(id, s.rows[id].body) && !task.after.finish
            && RowsDropped(s.rows, task.after) == Sweeper.RowReaped(s.rows, q, id, s.rows[id].body)
  {
  }

  lemma FailedAllOfOne(m: Results, rid: RequestId, now: int)
    ensures Sweeper.FailedAll(m, {rid}, now) == if TerminalIn(m, rid) then m else Failed(m, rid, Sweeper.ABANDONED, now)
  {
  }

  /** What the startup reap does to one abandoned row and to its request's result is a run of the protocol. */
  lemma ReapedRowIsARun(s: State, id: MsgId, q: QueueName, t: TaskId, now: int) returns (steps: seq<Step>)
    requires Abandoned(s.rows, q, id, now) && t !in s.tasks
    ensures ValidRun(s, steps) && Exec(s, steps) == ReapedRow(s, id, q, now)
  {
    var first, c := DoReap(id, q, t, now), DoAdvance(t, [], now);
    var task := ReapOf(s, id, q);
    var m := s.(tasks := s.tasks[t := task]);
    assert m.tasks - {t} == s.tasks;
    ReapTaskDrops(s, id, q);
    FailedAllOfOne(s.results, task.rid, now);
    if task.Drop? {
      DropIsARun(m, t, task.rid, task.after, [], now);
      Prepend(s, first, [c]);
      steps := [first] + [c];
    } else {
      FinishIsARun(m, t, task.rid, Sweeper.ABANDONED, task.after, [], now);
      Prepend(s, first, [c, c]);
      steps := [first] + [c, c];
    }
  }

  /** The drain of the listed rows, one after the other. */
  function DrainedAll(s: State, w: WorkerId, includeLeased: bool, ids: seq<MsgId>, newIds: seq<MsgId>, now: int): State
    requires |newIds| == |ids|
    decreases |ids|
  {
    if ids == [] then s
    else
      var n := if On(s.rows, Worker(w), ids[0]) then DrainedRow(s, ids[0], w, includeLeased, newIds[0], now) else s;
      DrainedAll(n, w, includeLeased, ids[1..], newIds[1..], now)
  }

  predicate AllFresh(s: State, newIds: seq<MsgId>) {
    && (forall i :: 0 <= i < |newIds| ==> IsFresh(s, newIds[i]))
    && (forall i, j :: 0 <= i < j < |newIds| ==> newIds[i] != newIds[j])
  }

  lemma {:induction false} DrainedAllIsARun(
    s: State, w: WorkerId, includeLeased: bool, ids: seq<MsgId>, newIds: seq<MsgId>, t: TaskId, now: int)
    returns (steps: seq<Step>)
    requires |newIds| == |ids| && t !in s.tasks && AllFresh(s, newIds)
    ensures ValidRun(s, steps) && Exec(s, steps) == DrainedAll(s, w, includeLeased, ids, newIds, now)
    ensures forall c :: c in steps ==> c.DoDrain? || c.DoAdvance?
    decreases |ids|
  {
    if ids == [] {
      steps := [];
    } else if On(s.rows, Worker(w), ids[0]) {
      var first := DrainSteps(s, ids[0], w, includeLeased, t, newIds[0], now);
      DrainedRowIsARun(s, ids[0], w, includeLeased, t, newIds[0], now);
      var n := DrainedRow(s, ids[0], w, includeLeased, newIds[0], now);
      DrainedRowUses(s, ids[0], w, includeLeased, newIds[0], now);
      var rest := DrainedAllIsARun(n, w, includeLeased, ids[1..], newIds[1..], t, now);
      RunsConcat(s, first, rest);
      steps := first + rest;
    } else {
      steps := DrainedAllIsARun(s, w, includeLeased, ids[1..], newIds[1..], t, now);
    }
  }

  /** The next row of the listing, and what it leaves alone. */
  lemma DrainedAllStep(s: State, w: WorkerId, includeLeased: bool, ids: seq<MsgId>, newIds: seq<MsgId>, i: nat, now: int)
    requires |newIds| == |ids| && i < |ids| && On(s.rows, Worker(w), ids[i]) && newIds[i] !in s.rows
    ensures var n := DrainedRow(s, ids[i], w, includeLeased, newIds[i], now);
            && DrainedAll(s, w, includeLeased, ids[i..], newIds[i..], now)
               == DrainedAll(n, w, includeLeased, ids[i + 1..], newIds[i + 1..], now)
            && (forall x :: x != ids[i] && On(s.rows, Worker(w), x) ==> On(n.rows, Worker(w), x))
            && n.rows.Keys <= s.rows.Keys + {newIds[i]}
  {
    assert ids[i..][0] == ids[i] && ids[i..][1..] == ids[i + 1..];
    assert newIds[i..][0] == newIds[i] && newIds[i..][1..] == newIds[i + 1..];
    DrainedRowTakes(s, ids[i], w, includeLeased, newIds[i], now);
    NewRowsOnly(s, ids[i], w, includeLeased, newIds[i], now);
  }

  lemma DrainedRowUses(s: State, wid: MsgId, w: WorkerId, includeLeased: bool, newId: MsgId, now: int)
    requires On(s.rows, Worker(w), wid)
    ensures var n := DrainedRow(s, wid, w, includeLeased, newId, now); n.used <= s.used + {newId} && n.tasks == s.tasks
  {
  }

  /** The worker rows left are the old ones but `wid`, unchanged. */
  ghost predicate TakesOnly(rows: Rows, next: Rows, wid: MsgId) {
    && (forall x :: IsWorker(next, x) <==> IsWorker(rows, x) && x != wid)
    && (forall x :: IsWorker(next, x) ==> next[x] == rows[x])
  }

  lemma DroppingTakes(rows: Rows, wid: MsgId, w: WorkerId, anchor: MsgId, now: int)
    requires On(rows, Worker(w), wid)
    ensures TakesOnly(rows, BothDeleted(rows, Worker(w), wid, Global, anchor), wid)
    ensures TakesOnly(rows, DeletedAndReleased(rows, Worker(w), wid, Global, anchor, now), wid)
  {
  }

  /** A drained row is gone, unless its body is unreadable or its lease is open and leased rows are to stay; no other worker row changes. */
  lemma DrainedRowTakes(s: State, wid: MsgId, w: WorkerId, includeLeased: bool, newId: MsgId, now: int)
    requires On(s.rows, Worker(w), wid) && newId !in s.rows
    ensures var n := DrainedRow(s, wid, w, includeLeased, newId, now);
            if s.rows[wid].body.Garbage? || (LeaseOpen(s.rows[wid], now) && !includeLeased) then n == s
            else TakesOnly(s.rows, n.rows, wid)
  {
    DroppingTakes(s.rows, wid, w, AnchorOf(s.rows[wid].body), now);
  }

  lemma {:induction false} DrainedAllTakes(s: State, w: WorkerId, ids: seq<MsgId>, newIds: seq<MsgId>, now: int)
    requires |newIds| == |ids|
    requires forall i :: 0 <= i < |newIds| ==> newIds[i] !in s.rows
    requires forall i, j :: 0 <= i < j < |newIds| ==> newIds[i] != newIds[j]
    requires forall i :: 0 <= i < |ids| ==> On(s.rows, Worker(w), ids[i]) && s.rows[ids[i]].body.Decoded?
    requires forall i, j :: 0 <= i < j < |ids| ==> ids[i] != ids[j]
    ensures var n := DrainedAll(s, w, true, ids, newIds, now);
            && n.tasks == s.tasks
            && (forall x :: IsWorker(n.rows, x) <==> IsWorker(s.rows, x) && x !in ids)
            && (forall x :: IsWorker(n.rows, x) ==> n.rows[x] == s.rows[x])
    decreases |ids|
  {
    if ids != [] {
      DrainedRowTakes(s, ids[0], w, true, newIds[0], now);
      DrainedRowUses(s, ids[0], w, true, newIds[0], now);
      var n := DrainedRow(s, ids[0], w, true, newIds[0], now);
      NewRowsOnly(s, ids[0], w, true, newIds[0], now);
      DrainedAllTakes(n, w, ids[1..], newIds[1..], now);
      assert forall x :: x in ids <==> x == ids[0] || x in ids[1..];
    }
  }

  lemma NewRowsOnly(s: State, wid: MsgId, w: WorkerId, includeLeased: bool, newId: MsgId, now: int)
    requires On(s.rows, Worker(w), wid)
    ensures DrainedRow(s, wid, w, includeLeased, newId, now).rows.Keys <= s.rows.Keys + {newId}
  {
  }

  lemma {:induction false} DrainsAreSafe(s: State, steps: seq<Step>)
    requires ValidRun(s, steps) && forall c :: c in steps ==> c.DoDrain? || c.DoAdvance?
    ensures CrashesAreSafe(s, steps) && NoDoubling(s, steps)
    decreases |steps|
  {
    if steps != [] {
      assert steps[0] in steps;
      DrainsAreSafe(Next(s, steps[0]), steps[1..]);
    }
  }

  /** The request's cancel is between its two steps. */
  ghost predicate MidCancel(s: State, rid: RequestId) {
    exists t :: t in s.tasks && s.tasks[t] == CancelSettle(rid)
  }

  /**
   A disconnect drain that lists the whole queue leaves nothing on it and touches
   no other worker's rows; every job it held has been answered or waits on the
   global queue, or its cancel was being stored already, which takes a cancelled
   anchor whose lease had run out.
   */
  lemma DisconnectHandsEverythingBack(
    s: State, w: WorkerId, ids: seq<MsgId>, newIds: seq<MsgId>, t: TaskId, now: int, wid: MsgId)
    requires Inv(s) && AllAccounted(s) && |newIds| == |ids| && t !in s.tasks && AllFresh(s, newIds)
    requires forall i, j :: 0 <= i < j < |ids| ==> ids[i] != ids[j]
    requires forall x :: x in ids <==> On(s.rows, Worker(w), x)
    ensures var n := DrainedAll(s, w, true, ids, newIds, now);
            && Inv(n) && AllAccounted(n)
            && (forall x :: IsWorker(n.rows, x) <==> IsWorker(s.rows, x) && s.rows[x].queue != Worker(w))
            && (On(s.rows, Worker(w), wid) ==>
                  var rid := Request(s.rows[wid]);
                  && (rid in n.decided || MidCancel(s, rid) || exists g :: WaitingRow(n.rows, rid, g))
                  && (CancelsAlone(s) ==> !MidCancel(s, rid)))
  {
    var n := DrainedAll(s, w, true, ids, newIds, now);
    DrainKeepsEverything(s, w, ids, newIds, t, now);
    forall i | 0 <= i < |ids|
      ensures On(s.rows, Worker(w), ids[i]) && s.rows[ids[i]].body.Decoded?
    {
      assert ids[i] in ids && RowOk(s.rows, s.used, ids[i]);
    }
    forall i | 0 <= i < |newIds|
      ensures newIds[i] !in s.rows
    {
      assert newIds[i] in s.rows ==> RowOk(s.rows, s.used, newIds[i]);
    }
    DrainedAllTakes(s, w, ids, newIds, now);
    if On(s.rows, Worker(w), wid) {
      HandedBack(s, n, w, wid);
    }
  }

  lemma DrainKeepsEverything(s: State, w: WorkerId, ids: seq<MsgId>, newIds: seq<MsgId>, t: TaskId, now: int)
    requires Inv(s) && AllAccounted(s) && |newIds| == |ids| && t !in s.tasks && AllFresh(s, newIds)
    ensures var n := DrainedAll(s, w, true, ids, newIds, now);
            Inv(n) && AllAccounted(n) && s.resubmits.Keys <= n.resubmits.Keys
  {
    var steps := DrainedAllIsARun(s, w, true, ids, newIds, t, now);
    DrainsAreSafe(s, steps);
    RunAccounts(s, steps);
    RunKeeps(s, steps);
    DrainedAllKnows(s, w, true, ids, newIds, now);
  }

  lemma {:induction false} DrainedAllKnows(
    s: State, w: WorkerId, includeLeased: bool, ids: seq<MsgId>, newIds: seq<MsgId>, now: int)
    requires |newIds| == |ids|
    ensures s.resubmits.Keys <= DrainedAll(s, w, includeLeased, ids, newIds, now).resubmits.Keys
    decreases |ids|
  {
    if ids != [] {
      var n := if On(s.rows, Worker(w), ids[0]) then DrainedRow(s, ids[0], w, includeLeased, newIds[0], now) else s;
      DrainedAllKnows(n, w, includeLeased, ids[1..], newIds[1..], now);
    }
  }

  lemma HandedBack(s: State, n: State, w: WorkerId, wid: MsgId)
    requires RowsOk(s.rows, s.used) && HistoryOk(s) && TasksOk(s) && On(s.rows, Worker(w), wid)
    requires AllAccounted(n) && n.tasks == s.tasks && s.resubmits.Keys <= n.resubmits.Keys
    requires forall x :: IsWorker(n.rows, x) ==> IsWorker(s.rows, x) && x != wid && n.rows[x] == s.rows[x]
    ensures var rid := Request(s.rows[wid]);
            && (rid in n.decided || MidCancel(s, rid) || exists g :: WaitingRow(n.rows, rid, g))
            && (CancelsAlone(s) ==> !MidCancel(s, rid))
  {
    var rid := Request(s.rows[wid]);
    assert Accounted(n, rid);
    forall x | IsWorker(n.rows, x)
      ensures Request(n.rows[x]) != rid
    {
      assert PairOk(s.rows, x, wid);
    }
    forall t | t in s.tasks && IsGap(s.tasks[t], rid)
      ensures s.tasks[t] == CancelSettle(rid) && !CancelsAlone(s)
    {
      assert TaskOk(s, s.tasks[t]);
    }
  }
}
