/**
 The dispatch-lifecycle bookkeeping under one mutex: which requests are being
 dispatched or are in flight, the seconds and memory they account for, and the
 operator's cancels.
 */
module InflightTracker {
  import opened EnvelopeCodec
  import opened FiniteSums
  import opened Wrappers

  type RequestId = Bytes
  type Name = string

  /** A residual at or below this counts as fully drained. */
  const EPSILON: real := 0.000000001

  const PREFIX: Name := "worker|"

  function WorkerQueueName(worker: Name): Name { PREFIX + worker }

  function ParseWorkerQueueName(name: Name): Option<Name> {
    if |name| > |PREFIX| && name[..|PREFIX|] == PREFIX then Some(name[|PREFIX|..]) else None
  }

  /** A queue name gives back exactly the worker it was built from; the empty id is not a worker. */
  lemma QueueNamesRoundTrip(worker: Name, name: Name)
    ensures ParseWorkerQueueName(name) == Some(worker) <==> worker != "" && name == WorkerQueueName(worker)
    ensures WorkerQueueName(worker) == "worker|" + worker
  {
    assert |name| >= |PREFIX| ==> name == name[..|PREFIX|] + name[|PREFIX|..];
    if worker != "" && name == WorkerQueueName(worker) {
      assert name[..|PREFIX|] == PREFIX && name[|PREFIX|..] == worker;
    }
  }

  datatype Record = Record(
    queue: Name, seconds: real, model: Name, worker: Name, jobID: Name, cancelled: bool, reserved: int, runtime: Name)

  datatype Tracker = Tracker(
    seconds: map<Name, real>,
    records: map<RequestId, Record>,
    dispatching: map<RequestId, bool>,
    reservations: map<Name, int>)

  const IDLE := Tracker(map[], map[], map[], map[])

  function Get<K, V>(m: map<K, V>, k: K, zero: V): V { if k in m then m[k] else zero }

  // --- The ledgers, as sums over the records ---

  function SecondsAt(queue: Name): (RequestId, Record) -> real {
    (_: RequestId, r: Record) => if r.queue == queue then r.seconds else 0.0
  }

  function ReservedAt(worker: Name): (RequestId, Record) -> real {
    (_: RequestId, r: Record) => if r.worker == worker then r.reserved as real else 0.0
  }

  ghost function SecondsOn(records: map<RequestId, Record>, queue: Name): real { Sum(records, SecondsAt(queue)) }

  ghost function ReservedOn(records: map<RequestId, Record>, worker: Name): real { Sum(records, ReservedAt(worker)) }

  predicate RecordOk(r: Record) {
    r.seconds > EPSILON && r.reserved >= 0 && r.worker == ParseWorkerQueueName(r.queue).GetOr("")
  }

  ghost predicate LedgerOk(t: Tracker) {
    && (forall rid :: rid in t.records ==> RecordOk(t.records[rid]))
    && (forall q :: Get(t.seconds, q, 0.0) == SecondsOn(t.records, q))
    && (forall w :: w != "" ==> Get(t.reservations, w, 0) as real == ReservedOn(t.records, w))
  }

  // --- Transitions ---

  function Marked(t: Tracker, rid: RequestId): Tracker { t.(dispatching := t.dispatching[rid := false]) }

  function Cleared(t: Tracker, rid: RequestId): Tracker { t.(dispatching := t.dispatching - {rid}) }

  function CancelMarked(t: Tracker, rid: RequestId): Tracker {
    if rid in t.dispatching then t.(dispatching := t.dispatching[rid := true]) else t
  }

  /** A cancel landed while the job was being dispatched. */
  predicate CancelledMidDispatch(t: Tracker, rid: RequestId) { rid in t.dispatching && t.dispatching[rid] }

  function Promoted(t: Tracker, rid: RequestId, r: Record): Tracker {
    Tracker(
      t.seconds[r.queue := Get(t.seconds, r.queue, 0.0) + r.seconds],
      t.records[rid := r],
      t.dispatching - {rid},
      if r.reserved > 0 && r.worker != "" then t.reservations[r.worker := Get(t.reservations, r.worker, 0) + r.reserved]
      else t.reservations)
  }

  function Started(t: Tracker, rid: RequestId, r: Record): Tracker {
    if CancelledMidDispatch(t, rid) then t else Promoted(t, rid, r)
  }

  function Finished(t: Tracker, rid: RequestId): Tracker {
    if rid !in t.records then t
    else
      var r := t.records[rid];
      var remaining := Get(t.reservations, r.worker, 0) - r.reserved;
      var residual := Get(t.seconds, r.queue, 0.0) - r.seconds;
      Tracker(
        if residual <= EPSILON then t.seconds - {r.queue} else t.seconds[r.queue := residual],
        t.records - {rid},
        t.dispatching,
        if r.reserved > 0 && r.worker != "" then
          if remaining <= 0 then t.reservations - {r.worker} else t.reservations[r.worker := remaining]
        else t.reservations)
  }

  function CancelRecorded(t: Tracker, rid: RequestId): Tracker {
    if rid in t.records then t.(records := t.records[rid := t.records[rid].(cancelled := true)]) else t
  }

  function Attached(t: Tracker, rid: RequestId, jobID: Name): Tracker {
    if rid in t.records then t.(records := t.records[rid := t.records[rid].(jobID := jobID)]) else t
  }

  // --- The ledgers stay exact ---

  /**
   Promoting a job keeps both ledgers the exact sums over the records precisely
   when the request had no record: an overwritten record's seconds are never
   given back.
   */
  lemma PromotionIsExactWhenNew(t: Tracker, rid: RequestId, r: Record)
    requires LedgerOk(t) && RecordOk(r)
    ensures LedgerOk(Promoted(t, rid, r)) <==> rid !in t.records
  {
    var n := Promoted(t, rid, r);
    if rid !in t.records {
      forall q
        ensures Get(n.seconds, q, 0.0) == SecondsOn(n.records, q)
      {
        PutIn(t.records, SecondsAt(q), rid, r);
        assert SecondsAt(q)(rid, r) == if r.queue == q then r.seconds else 0.0;
        assert Get(t.seconds, q, 0.0) == SecondsOn(t.records, q);
      }
      forall w | w != ""
        ensures Get(n.reservations, w, 0) as real == ReservedOn(n.records, w)
      {
        PutIn(t.records, ReservedAt(w), rid, r);
        assert ReservedAt(w)(rid, r) == if r.worker == w then r.reserved as real else 0.0;
        assert Get(t.reservations, w, 0) as real == ReservedOn(t.records, w);
      }
    } else {
      var q := t.records[rid].queue;
      Replace(t.records, SecondsAt(q), rid, r);
      assert SecondsAt(q)(rid, r) == if r.queue == q then r.seconds else 0.0;
      assert SecondsAt(q)(rid, t.records[rid]) == t.records[rid].seconds;
      assert Get(t.seconds, q, 0.0) == SecondsOn(t.records, q);
      assert Get(n.seconds, q, 0.0) != SecondsOn(n.records, q);
    }
  }

  /** Finishing a job gives back exactly what it took, and doing it again changes nothing. */
  lemma FinishIsExact(t: Tracker, rid: RequestId)
    requires LedgerOk(t)
    ensures LedgerOk(Finished(t, rid))
    ensures Finished(Finished(t, rid), rid) == Finished(t, rid)
  {
    var n := Finished(t, rid);
    if rid in t.records {
      forall q
        ensures Get(n.seconds, q, 0.0) == SecondsOn(n.records, q)
      {
        TakeOut(t.records, SecondsAt(q), rid);
        assert SecondsAt(q)(rid, t.records[rid]) == if t.records[rid].queue == q then t.records[rid].seconds else 0.0;
        assert Get(t.seconds, q, 0.0) == SecondsOn(t.records, q);
        ZeroOrAbove(n.records, SecondsAt(q), EPSILON);
      }
      forall w | w != ""
        ensures Get(n.reservations, w, 0) as real == ReservedOn(n.records, w)
      {
        TakeOut(t.records, ReservedAt(w), rid);
        assert ReservedAt(w)(rid, t.records[rid]) == if t.records[rid].worker == w then t.records[rid].reserved as real else 0.0;
        assert Get(t.reservations, w, 0) as real == ReservedOn(t.records, w);
        ReservedIsNotNegative(n.records, w);
      }
    }
  }

  lemma {:induction false} ReservedIsNotNegative(records: map<RequestId, Record>, w: Name)
    requires forall rid :: rid in records ==> records[rid].reserved >= 0
    ensures ReservedOn(records, w) >= 0.0
    decreases |records|
  {
    ZeroOrAbove(records, ReservedAt(w), 0.0);
  }

  /** An entry is there exactly while some record accounts for it. */
  lemma EntriesFollowRecords(t: Tracker, q: Name)
    requires LedgerOk(t)
    ensures Get(t.seconds, q, 0.0) == 0.0 <==> forall rid :: rid in t.records ==> t.records[rid].queue != q
  {
    ZeroOrAbove(t.records, SecondsAt(q), EPSILON);
    forall rid | rid in t.records && Get(t.seconds, q, 0.0) == 0.0
      ensures t.records[rid].queue != q
    {
      assert SecondsAt(q)(rid, t.records[rid]) == 0.0;
    }
    if forall rid :: rid in t.records ==> t.records[rid].queue != q {
      AllZero(t.records, SecondsAt(q));
    }
  }

  /** Cancels and job ids are not on the ledgers. */
  lemma NotesKeepLedger(t: Tracker, rid: RequestId, r: Record)
    requires LedgerOk(t) && rid in t.records
    requires r.queue == t.records[rid].queue && r.seconds == t.records[rid].seconds
    requires r.worker == t.records[rid].worker && r.reserved == t.records[rid].reserved
    ensures LedgerOk(t.(records := t.records[rid := r]))
  {
    var n := t.(records := t.records[rid := r]);
    forall q
      ensures Get(n.seconds, q, 0.0) == SecondsOn(n.records, q)
    {
      Replace(t.records, SecondsAt(q), rid, r);
    }
    forall w | w != ""
      ensures Get(n.reservations, w, 0) as real == ReservedOn(n.records, w)
    {
      Replace(t.records, ReservedAt(w), rid, r);
    }
  }

  /** A record for the request with exactly these figures, its marker gone, the queue's seconds and the worker's bytes raised by them. */
  ghost predicate StartedWith(
    t: Tracker, n: Tracker, rid: RequestId, queue: Name, secs: real, model: Name, reserved: int, runtime: Name)
  {
    && n.dispatching == t.dispatching - {rid}
    && n.records.Keys == t.records.Keys + {rid} && (forall other :: other in t.records && other != rid ==> n.records[other] == t.records[other])
    && var r := n.records[rid];
       && r.queue == queue && r.seconds == secs && r.model == model && r.reserved == reserved && r.runtime == runtime
       && r.jobID == "" && !r.cancelled
       && (r.worker == "" || queue == "worker|" + r.worker) && (r.worker == "" ==> forall w :: w != "" ==> queue != "worker|" + w)
       && n.seconds == t.seconds[queue := (if queue in t.seconds then t.seconds[queue] else 0.0) + secs]
       && n.reservations == if reserved > 0 && r.worker != ""
                            then t.reservations[r.worker := (if r.worker in t.reservations then t.reservations[r.worker] else 0) + reserved]
                            else t.reservations
  }

  /** The record is gone, with its seconds and its bytes; an entry that comes to nothing goes too. */
  ghost predicate FinishedFrom(t: Tracker, n: Tracker, rid: RequestId)
    requires rid in t.records
  {
    var r := t.records[rid];
    var seconds := (if r.queue in t.seconds then t.seconds[r.queue] else 0.0) - r.seconds;
    var bytes := (if r.worker in t.reservations then t.reservations[r.worker] else 0) - r.reserved;
    && n.dispatching == t.dispatching && n.records == t.records - {rid}
    && n.seconds == (if seconds <= 0.000000001 then t.seconds - {r.queue} else t.seconds[r.queue := seconds])
    && n.reservations == if r.reserved > 0 && r.worker != ""
                         then if bytes <= 0 then t.reservations - {r.worker} else t.reservations[r.worker := bytes]
                         else t.reservations
  }

  lemma StartedIs(t: Tracker, rid: RequestId, queue: Name, secs: real, model: Name, reserved: int, runtime: Name)
    requires !CancelledMidDispatch(t, rid)
    ensures StartedWith(t, Started(t, rid, NewRecord(queue, model, runtime, secs, reserved)), rid, queue, secs, model, reserved, runtime)
  {
    var worker := NewRecord(queue, model, runtime, secs, reserved).worker;
    QueueNamesRoundTrip(worker, queue);
    forall w | worker == "" && w != ""
      ensures queue != "worker|" + w
    {
      QueueNamesRoundTrip(w, queue);
    }
  }

  // --- The mutex-guarded state ---

  class Inflight {
    var inflightSeconds: map<Name, real>
    var inflightByRequest: map<RequestId, Record>
    var dispatchingByRequest: map<RequestId, bool>
    var memoryReservations: map<Name, int>

    function View(): Tracker
      reads this
    {
      Tracker(inflightSeconds, inflightByRequest, dispatchingByRequest, memoryReservations)
    }

    constructor ()
      ensures View() == IDLE
    {
      inflightSeconds, inflightByRequest, dispatchingByRequest, memoryReservations := map[], map[], map[], map[];
    }

    method MarkDispatching(rid: RequestId)
      modifies this
      ensures View() == Marked(old(View()), rid)
      ensures View() == old(View()).(dispatching := old(dispatchingByRequest)[rid := false])
    {
      dispatchingByRequest := dispatchingByRequest[rid := false];
    }

    method ClearDispatching(rid: RequestId)
      modifies this
      ensures View() == Cleared(old(View()), rid)
      ensures View() == old(View()).(dispatching := old(dispatchingByRequest) - {rid})
    {
      dispatchingByRequest := dispatchingByRequest - {rid};
    }

    method RequestCancelDuringDispatch(rid: RequestId) returns (ok: bool)
      modifies this
      ensures ok <==> rid in old(dispatchingByRequest)
      ensures View() == CancelMarked(old(View()), rid)
      ensures View() == if ok then old(View()).(dispatching := old(dispatchingByRequest)[rid := true]) else old(View())
    {
      if rid !in dispatchingByRequest {
        return false;
      }
      dispatchingByRequest := dispatchingByRequest[rid := true];
      return true;
    }

    method StartInflight(queue: Name, rid: RequestId, model: Name, runtime: Name, secs: real, reserved: int) returns (ok: bool)
      modifies this
      ensures ok <==> !CancelledMidDispatch(old(View()), rid)
      ensures View() == Started(old(View()), rid, NewRecord(queue, model, runtime, secs, reserved))
      ensures ok <==> !(rid in old(dispatchingByRequest) && old(dispatchingByRequest)[rid])
      ensures !ok ==> View() == old(View())
      ensures ok ==> StartedWith(old(View()), View(), rid, queue, secs, model, reserved, runtime)
    {
      var worker := ParseWorkerQueueName(queue).GetOr("");
      if !CancelledMidDispatch(View(), rid) { StartedIs(View(), rid, queue, secs, model, reserved, runtime); }
      if rid in dispatchingByRequest && dispatchingByRequest[rid] {
        return false;
      }
      dispatchingByRequest := dispatchingByRequest - {rid};
      inflightSeconds := inflightSeconds[queue := Get(inflightSeconds, queue, 0.0) + secs];
      if reserved > 0 && worker != "" {
        memoryReservations := memoryReservations[worker := Get(memoryReservations, worker, 0) + reserved];
      }
      inflightByRequest := inflightByRequest[rid := Record(queue, secs, model, worker, "", false, reserved, runtime)];
      return true;
    }

    method AttachWorkerJobID(rid: RequestId, jobID: Name)
      modifies this
      ensures View() == Attached(old(View()), rid, jobID)
      ensures View() == if rid in old(inflightByRequest)
                        then old(View()).(records := old(inflightByRequest)[rid := old(inflightByRequest)[rid].(jobID := jobID)]) else old(View())
    {
      if rid in inflightByRequest {
        inflightByRequest := inflightByRequest[rid := inflightByRequest[rid].(jobID := jobID)];
      }
    }

    method MarkInflightCancelled(rid: RequestId) returns (r: Option<(Name, Name)>)
      modifies this
      ensures r.Some? <==> rid in old(inflightByRequest)
      ensures r.Some? ==> r.value == (old(inflightByRequest[rid].worker), old(inflightByRequest[rid].jobID))
      ensures View() == CancelRecorded(old(View()), rid)
      ensures View() == if rid in old(inflightByRequest)
                        then old(View()).(records := old(inflightByRequest)[rid := old(inflightByRequest)[rid].(cancelled := true)]) else old(View())
    {
      if rid !in inflightByRequest {
        return None;
      }
      var rec := inflightByRequest[rid];
      inflightByRequest := inflightByRequest[rid := rec.(cancelled := true)];
      return Some((rec.worker, rec.jobID));
    }

    method FinishInflight(rid: RequestId)
      modifies this
      ensures View() == Finished(old(View()), rid)
      ensures if rid in old(inflightByRequest) then FinishedFrom(old(View()), View(), rid) else View() == old(View())
    {
      if rid !in inflightByRequest {
        return;
      }
      var rec := inflightByRequest[rid];
      inflightByRequest := inflightByRequest - {rid};
      if rec.reserved > 0 && rec.worker != "" {
        var remaining := Get(memoryReservations, rec.worker, 0) - rec.reserved;
        if remaining <= 0 {
          memoryReservations := memoryReservations - {rec.worker};
        } else {
          memoryReservations := memoryReservations[rec.worker := remaining];
        }
      }
      var residual := Get(inflightSeconds, rec.queue, 0.0) - rec.seconds;
      if residual <= EPSILON {
        inflightSeconds := inflightSeconds - {rec.queue};
        return;
      }
      inflightSeconds := inflightSeconds[rec.queue := residual];
    }

    method InflightCountForWorker(worker: Name) returns (n: nat)
      ensures n == |set rid | rid in inflightByRequest && inflightByRequest[rid].worker == worker|
    {
      n := 0;
      var left := inflightByRequest.Keys;
      ghost var counted: set<RequestId> := {};
      while left != {}
        invariant left <= inflightByRequest.Keys
        invariant counted == set rid | rid in inflightByRequest && rid !in left && inflightByRequest[rid].worker == worker
        invariant n == |counted|
        decreases left
      {
        var rid :| rid in left;
        left := left - {rid};
        if inflightByRequest[rid].worker == worker {
          n := n + 1;
          counted := counted + {rid};
        }
      }
      assert counted == set rid | rid in inflightByRequest && inflightByRequest[rid].worker == worker;
    }

    method WorkerHasInflightForModel(worker: Name, model: Name) returns (found: bool)
      ensures found <==> exists rid :: rid in inflightByRequest
                                       && inflightByRequest[rid].worker == worker && inflightByRequest[rid].model == model
    {
      var left := inflightByRequest.Keys;
      while left != {}
        invariant left <= inflightByRequest.Keys
        invariant forall rid :: rid in inflightByRequest && rid !in left ==>
                                  !(inflightByRequest[rid].worker == worker && inflightByRequest[rid].model == model)
        decreases left
      {
        var rid :| rid in left;
        left := left - {rid};
        if inflightByRequest[rid].worker == worker && inflightByRequest[rid].model == model {
          return true;
        }
      }
      return false;
    }
  }

  function NewRecord(queue: Name, model: Name, runtime: Name, secs: real, reserved: int): Record {
    Record(queue, secs, model, ParseWorkerQueueName(queue).GetOr(""), "", false, reserved, runtime)
  }
}
