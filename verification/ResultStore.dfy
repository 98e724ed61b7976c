/** The queue_results table: the durable status of every submitted request. */
module ResultStore {
  import opened EnvelopeCodec
  import opened Wrappers

  type RequestId = Bytes

  datatype Status = Pending | Processing | Done | Error

  predicate IsTerminal(s: Status) { s.Done? || s.Error? }

  datatype JobResult = JobResult(status: Status, body: Bytes, error: string, completedAt: Option<int>)

  type Results = map<RequestId, JobResult>

  predicate TerminalIn(m: Results, id: RequestId) { id in m && IsTerminal(m[id].status) }

  /** A row is stamped complete exactly when its status is terminal. */
  ghost predicate Stamped(m: Results) {
    forall id :: id in m ==> (IsTerminal(m[id].status) <==> m[id].completedAt.Some?)
  }

  function Created(m: Results, id: RequestId): Results {
    if id in m then m else m[id := JobResult(Pending, [], "", None)]
  }

  /** The guarded writes: only the named status flips. */
  function Flipped(m: Results, id: RequestId, from: Status, to: Status): Results {
    if id in m && m[id].status == from then m[id := m[id].(status := to)] else m
  }

  function Completed(m: Results, id: RequestId, body: Bytes, now: int): Results {
    if id in m then m[id := m[id].(status := Done, body := body, completedAt := Some(now))] else m
  }

  function Failed(m: Results, id: RequestId, error: string, now: int): Results {
    if id in m then m[id := m[id].(status := Error, error := error, completedAt := Some(now))] else m
  }

  /** The same rows, and all but `id` as they were. */
  ghost predicate OnlyChanges(m: Results, n: Results, id: RequestId) {
    n.Keys == m.Keys && forall other :: other in m && other != id ==> n[other] == m[other]
  }

  predicate Prunable(r: JobResult, cutoff: int) {
    IsTerminal(r.status) && r.completedAt.Some? && r.completedAt.value < cutoff
  }

  function Pruned(m: Results, cutoff: int): Results {
    map id | id in m && !Prunable(m[id], cutoff) :: m[id]
  }

  class ResultTable {
    var results: Results

    constructor ()
      ensures results == map[]
    {
      results := map[];
    }

    method Create(id: RequestId) returns (ok: bool)
      modifies this
      ensures ok <==> id !in old(results)
      ensures results == Created(old(results), id)
      ensures results == if ok then old(results)[id := JobResult(Status.Pending, [], "", None)] else old(results)
    {
      if id in results {
        return false; // primary-key conflict
      }
      results := results[id := JobResult(Status.Pending, [], "", None)];
      return true;
    }

    method Processing(id: RequestId)
      modifies this
      ensures results == Flipped(old(results), id, Status.Pending, Status.Processing)
      ensures id in old(results) && old(results)[id].status == Status.Pending ==> results == old(results)[id := old(results)[id].(status := Status.Processing)]
      ensures !(id in old(results) && old(results)[id].status == Status.Pending) ==> results == old(results)
    {
      if id in results && results[id].status == Status.Pending {
        results := results[id := results[id].(status := Status.Processing)];
      }
    }

    method Pending(id: RequestId)
      modifies this
      ensures results == Flipped(old(results), id, Status.Processing, Status.Pending)
      ensures id in old(results) && old(results)[id].status == Status.Processing ==> results == old(results)[id := old(results)[id].(status := Status.Pending)]
      ensures !(id in old(results) && old(results)[id].status == Status.Processing) ==> results == old(results)
    {
      if id in results && results[id].status == Status.Processing {
        results := results[id := results[id].(status := Status.Pending)];
      }
    }

    method Complete(id: RequestId, body: Bytes, now: int)
      modifies this
      ensures results == Completed(old(results), id, body, now)
      ensures id in old(results) ==> results == old(results)[id := JobResult(Done, body, old(results)[id].error, Some(now))]
      ensures id !in old(results) ==> results == old(results)
    {
      if id in results {
        results := results[id := results[id].(status := Done, body := body, completedAt := Some(now))];
      }
    }

    method Fail(id: RequestId, error: string, now: int)
      modifies this
      ensures results == Failed(old(results), id, error, now)
      ensures id in old(results) ==> results == old(results)[id := JobResult(Error, old(results)[id].body, error, Some(now))]
      ensures id !in old(results) ==> results == old(results)
    {
      if id in results {
        results := results[id := results[id].(status := Error, error := error, completedAt := Some(now))];
      }
    }

    method Get(id: RequestId) returns (r: Option<JobResult>)
      ensures r == if id in results then Some(results[id]) else None
    {
      return if id in results then Some(results[id]) else None;
    }

    method Cleanup(now: int, ttl: nat) returns (removed: nat)
      modifies this
      ensures results == Pruned(old(results), now - ttl)
      ensures removed == |old(results)| - |results|
      ensures forall id :: id in results ==> id in old(results) && results[id] == old(results)[id]
      ensures forall id :: id in old(results) && id !in results <==>
                && id in old(results) && (old(results)[id].status.Done? || old(results)[id].status.Error?)
                && old(results)[id].completedAt.Some? && old(results)[id].completedAt.value < now - ttl
    {
      var doomed := set id | id in results && Prunable(results[id], now - ttl);
      removed := |doomed|;
      ghost var before := results;
      results := results - doomed;
      assert results == Pruned(before, now - ttl);
      assert before.Keys == results.Keys + doomed;
    }
  }

  // --- Runs ---

  datatype StatusOp =
    | OpCreate(id: RequestId)
    | OpProcessing(id: RequestId)
    | OpPending(id: RequestId)
    | OpComplete(id: RequestId, body: Bytes, now: int)
    | OpFail(id: RequestId, error: string, now: int)
    | OpCleanup(cutoff: int)

  function Apply(m: Results, op: StatusOp): Results {
    match op
    case OpCreate(id) => Created(m, id)
    case OpProcessing(id) => Flipped(m, id, Pending, Processing)
    case OpPending(id) => Flipped(m, id, Processing, Pending)
    case OpComplete(id, body, now) => Completed(m, id, body, now)
    case OpFail(id, error, now) => Failed(m, id, error, now)
    case OpCleanup(cutoff) => Pruned(m, cutoff)
  }

  function Run(m: Results, ops: seq<StatusOp>): Results
    decreases |ops|
  {
    if ops == [] then m else Run(Apply(m, ops[0]), ops[1..])
  }

  predicate Settles(op: StatusOp, id: RequestId) {
    (op.OpComplete? || op.OpFail?) && op.id == id
  }

  lemma HeadAndTail(ops: seq<StatusOp>)
    requires ops != []
    ensures ops[0] in ops
    ensures forall op :: op in ops <==> op == ops[0] || op in ops[1..]
  {
  }

  /**
   From any run without a prune: a row that exists is terminal afterwards
   exactly when it already was or some Complete or Fail named it. No Processing
   or Pending, in any order, takes a result out of the terminal states.
   */
  lemma {:induction false} TerminalExactlyWhenSettled(m: Results, ops: seq<StatusOp>, id: RequestId)
    requires id in m
    requires forall op :: op in ops ==> !op.OpCleanup?
    ensures id in Run(m, ops)
    ensures TerminalIn(Run(m, ops), id) <==> TerminalIn(m, id) || exists op :: op in ops && Settles(op, id)
    decreases |ops|
  {
    if ops != [] {
      HeadAndTail(ops);
      TerminalExactlyWhenSettled(Apply(m, ops[0]), ops[1..], id);
    }
  }

  /** Pruning never takes a live row: one nothing settled is still there, still live, after any run. */
  lemma {:induction false} LiveRowsAreKept(m: Results, ops: seq<StatusOp>, id: RequestId)
    requires id in m && !TerminalIn(m, id)
    requires forall op :: op in ops ==> !Settles(op, id)
    ensures id in Run(m, ops) && !TerminalIn(Run(m, ops), id)
    decreases |ops|
  {
    if ops != [] {
      HeadAndTail(ops);
      LiveRowsAreKept(Apply(m, ops[0]), ops[1..], id);
    }
  }

  /** Once terminal, a row leaves the table or stays terminal, over every run, prunes and re-creations of other ids included. */
  lemma {:induction false} TerminalUntilPruned(m: Results, ops: seq<StatusOp>, id: RequestId)
    requires TerminalIn(m, id)
    requires forall op :: op in ops ==> op != OpCreate(id)
    ensures id in Run(m, ops) ==> TerminalIn(Run(m, ops), id)
    decreases |ops|
  {
    if ops != [] {
      HeadAndTail(ops);
      var next := Apply(m, ops[0]);
      if id in next {
        TerminalUntilPruned(next, ops[1..], id);
      } else {
        AbsentStaysAbsent(next, ops[1..], id);
      }
    }
  }

  lemma {:induction false} AbsentStaysAbsent(m: Results, ops: seq<StatusOp>, id: RequestId)
    requires id !in m
    requires forall op :: op in ops ==> op != OpCreate(id)
    ensures id !in Run(m, ops)
    decreases |ops|
  {
    if ops != [] {
      HeadAndTail(ops);
      AbsentStaysAbsent(Apply(m, ops[0]), ops[1..], id);
    }
  }

  /** The completion stamp Cleanup reads is present on terminal rows and only on them, over every run. */
  lemma {:induction false} StampsFollowStatus(m: Results, ops: seq<StatusOp>)
    requires Stamped(m)
    ensures Stamped(Run(m, ops))
    decreases |ops|
  {
    if ops != [] {
      StampsFollowStatus(Apply(m, ops[0]), ops[1..]);
    }
  }

  /** Complete and Fail carry no guard: the last one wins, so a done result can still turn into an error. */
  lemma LastVerdictWins(m: Results, id: RequestId, body: Bytes, error: string, t1: int, t2: int)
    requires id in m
    ensures TerminalStatus(Run(m, [OpComplete(id, body, t1), OpFail(id, error, t2)]), id) == Some(Error)
    ensures TerminalStatus(Run(m, [OpFail(id, error, t1), OpComplete(id, body, t2)]), id) == Some(Done)
  {
    TwoSteps(m, OpComplete(id, body, t1), OpFail(id, error, t2));
    TwoSteps(m, OpFail(id, error, t1), OpComplete(id, body, t2));
  }

  lemma {:induction false} RunJoins(m: Results, a: seq<StatusOp>, b: seq<StatusOp>)
    ensures Run(m, a + b) == Run(Run(m, a), b)
    decreases |a|
  {
    if a == [] {
      assert a + b == b;
    } else {
      assert (a + b)[0] == a[0] && (a + b)[1..] == a[1..] + b;
      RunJoins(Apply(m, a[0]), a[1..], b);
    }
  }

  /** What a row shows of the verdict: a done result its body, an error its text, either its time. */
  predicate Shows(r: JobResult, verdict: StatusOp)
    requires verdict.OpComplete? || verdict.OpFail?
  {
    && r.completedAt == Some(verdict.now)
    && if verdict.OpComplete? then r.status == Done && r.body == verdict.body
       else r.status == Error && r.error == verdict.error
  }

  /** Over every run, while the row is there, it shows the last verdict that named it, whatever else came before or after. */
  lemma LastVerdictIsKept(m: Results, before: seq<StatusOp>, verdict: StatusOp, after: seq<StatusOp>, id: RequestId)
    requires Settles(verdict, id)
    requires forall op :: op in after ==> !Settles(op, id) && op != OpCreate(id)
    requires id in Run(m, before + [verdict] + after)
    ensures Shows(Run(m, before + [verdict] + after)[id], verdict)
  {
    RunJoins(m, before + [verdict], after);
    RunJoins(m, before, [verdict]);
    var was := Run(m, before);
    var now := Apply(was, verdict);
    assert Run(was, [verdict]) == Run(now, []);
    if id !in was {
      AbsentStaysAbsent(now, after, id);
    } else {
      ShownIsKept(now, verdict, after, id);
    }
  }

  lemma {:induction false} ShownIsKept(m: Results, verdict: StatusOp, after: seq<StatusOp>, id: RequestId)
    requires Settles(verdict, id) && id in m && Shows(m[id], verdict)
    requires forall op :: op in after ==> !Settles(op, id) && op != OpCreate(id)
    requires id in Run(m, after)
    ensures Shows(Run(m, after)[id], verdict)
    decreases |after|
  {
    if after != [] {
      HeadAndTail(after);
      var next := Apply(m, after[0]);
      if id in next {
        ShownIsKept(next, verdict, after[1..], id);
      } else {
        AbsentStaysAbsent(next, after[1..], id);
      }
    }
  }

  function TerminalStatus(m: Results, id: RequestId): Option<Status> {
    if TerminalIn(m, id) then Some(m[id].status) else None
  }

  lemma TwoSteps(m: Results, a: StatusOp, b: StatusOp)
    ensures Run(m, [a, b]) == Apply(Apply(m, a), b)
  {
    assert [a, b][1..] == [b];
    assert [b][1..] == [];
    assert Run(Apply(m, a), [b]) == Run(Apply(Apply(m, a), b), []);
  }
}
