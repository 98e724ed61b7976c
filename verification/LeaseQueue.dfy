/**
 The SQL-backed lease queue: one table shared by the global queue and every
 worker queue. Each function is one committed transaction on the table; each
 method of [LeaseTable] is the statement sequence that performs it. The clock
 reading and the database's new row id are inputs.
 */
module LeaseQueue {
  import opened EnvelopeCodec
  import opened Wrappers

  type MsgId = Bytes
  type WorkerId = Bytes

  /** One delivery per row, no in-queue retries. */
  const MAX_RECEIVE: nat := 1

  /** How far into the past a released row's timeout is moved, in milliseconds. */
  const RELEASE_OFFSET := 1000

  datatype QueueName = Global | Worker(id: WorkerId)

  /** A body that does not parse is kept as the source keeps it: opaque. */
  datatype Body = Decoded(env: Envelope) | Garbage(raw: Bytes)

  datatype Row = Row(queue: QueueName, body: Body, priority: int, created: int, timeout: int, received: nat)

  type Rows = map<MsgId, Row>

  /** The global row an envelope names as its durability anchor; empty when it names none. */
  function AnchorOf(body: Body): MsgId {
    if body.Decoded? then body.env.globalMsgID else []
  }

  predicate On(rows: Rows, q: QueueName, id: MsgId) {
    id in rows && rows[id].queue == q
  }

  /** What Peek shows. The delivery count is not consulted. */
  predicate Visible(rows: Rows, q: QueueName, id: MsgId, now: int) {
    On(rows, q, id) && rows[id].timeout <= now
  }

  /** What a lease or a move accepts: visible, with delivery budget left. */
  predicate Leasable(rows: Rows, q: QueueName, id: MsgId, now: int) {
    Visible(rows, q, id, now) && rows[id].received < MAX_RECEIVE
  }

  /** PeekAll's flag: delivered, and the window still open. */
  predicate LeaseOpen(row: Row, now: int) { row.timeout > now && row.received > 0 }

  predicate Abandoned(rows: Rows, q: QueueName, id: MsgId, now: int) {
    On(rows, q, id) && rows[id].received >= MAX_RECEIVE && rows[id].timeout <= now
  }

  function Inserted(rows: Rows, id: MsgId, q: QueueName, body: Body, priority: int, now: int): Rows {
    rows[id := Row(q, body, priority, now, now, 0)]
  }

  function Deleted(rows: Rows, q: QueueName, id: MsgId): Rows {
    if On(rows, q, id) then rows - {id} else rows
  }

  function Leased(rows: Rows, q: QueueName, id: MsgId, now: int, duration: int): Rows {
    if Leasable(rows, q, id, now) then
      rows[id := rows[id].(received := rows[id].received + 1, timeout := now + duration)]
    else rows
  }

  /** Visible again at `visibleAt` with the delivery count reset: a release (past) or a defer (future). */
  function Rearmed(rows: Rows, q: QueueName, id: MsgId, visibleAt: int): Rows {
    if On(rows, q, id) then rows[id := rows[id].(received := 0, timeout := visibleAt)] else rows
  }

  function Extended(rows: Rows, q: QueueName, id: MsgId, until: int): Rows {
    if On(rows, q, id) then rows[id := rows[id].(timeout := until)] else rows
  }

  function Rewritten(rows: Rows, q: QueueName, id: MsgId, body: Body): Rows {
    if On(rows, q, id) then rows[id := rows[id].(body := body)] else rows
  }

  function Moved(rows: Rows, src: QueueName, dst: QueueName, id: MsgId, priority: int, newId: MsgId, now: int): Rows {
    if Leasable(rows, src, id, now) then
      Inserted(rows - {id}, newId, dst, rows[id].body, priority, now)
    else rows
  }

  function BothDeleted(rows: Rows, q: QueueName, id: MsgId, other: QueueName, otherId: MsgId): Rows {
    Deleted(Deleted(rows, q, id), other, otherId)
  }

  function DeletedAndReleased(rows: Rows, q: QueueName, id: MsgId, other: QueueName, otherId: MsgId, now: int): Rows {
    Rearmed(Deleted(rows, q, id), other, otherId, now - RELEASE_OFFSET)
  }

  /** Row `id` is gone, row `otherId` can be leased again from this moment on, nothing else differs. */
  ghost predicate HandsBack(rows: Rows, next: Rows, q: QueueName, id: MsgId, other: QueueName, otherId: MsgId, now: int) {
    && (forall x :: x in next <==> x in rows && !(x == id && rows[x].queue == q))
    && (forall x :: x in next && !(x == otherId && rows[x].queue == other) ==> next[x] == rows[x])
    && (otherId in next && rows[otherId].queue == other ==>
          && next[otherId] == rows[otherId].(received := 0, timeout := now - 1000)
          && forall t :: t >= now ==> Leasable(next, other, otherId, t))
  }

  /** Both rows are gone, each from its own queue only; nothing else differs. */
  ghost predicate Drops(rows: Rows, next: Rows, q: QueueName, id: MsgId, other: QueueName, otherId: MsgId) {
    && (forall x :: x in next <==> x in rows && !(x == id && rows[x].queue == q) && !(x == otherId && rows[x].queue == other))
    && (forall x :: x in next ==> next[x] == rows[x])
  }

  lemma BothDeletedDrops(rows: Rows, q: QueueName, id: MsgId, other: QueueName, otherId: MsgId)
    ensures Drops(rows, BothDeleted(rows, q, id, other, otherId), q, id, other, otherId)
  {
  }

  lemma ReleasedIsHandedBack(rows: Rows, q: QueueName, id: MsgId, other: QueueName, otherId: MsgId, now: int)
    ensures HandsBack(rows, DeletedAndReleased(rows, q, id, other, otherId, now), q, id, other, otherId, now)
  {
  }

  function LeasedAndSubmitted(
    rows: Rows, q: QueueName, id: MsgId, duration: int, dst: QueueName, env: Envelope, newId: MsgId, now: int): Rows
  {
    if Leasable(rows, q, id, now) then
      Inserted(Leased(rows, q, id, now, duration), newId, dst, Decoded(env), env.priority, now)
    else rows
  }

  class LeaseTable {
    var rows: Rows

    constructor ()
      ensures rows == map[]
    {
      rows := map[];
    }

    method Submit(q: QueueName, env: Envelope, newId: MsgId, now: int)
      requires newId !in rows
      modifies this
      ensures rows == Inserted(old(rows), newId, q, Decoded(env), env.priority, now)
      ensures rows == old(rows)[newId := Row(q, Decoded(env), env.priority, now, now, 0)]
    {
      rows := rows[newId := Row(q, Decoded(env), env.priority, now, now, 0)];
    }

    method Delete(q: QueueName, id: MsgId)
      modifies this
      ensures rows == Deleted(old(rows), q, id)
      ensures rows == if id in old(rows) && old(rows)[id].queue == q then old(rows) - {id} else old(rows)
    {
      if id in rows && rows[id].queue == q {
        rows := rows - {id};
      }
    }

    method LeaseByID(q: QueueName, id: MsgId, duration: int, now: int) returns (leased: Option<Body>)
      modifies this
      ensures rows == Leased(old(rows), q, id, now, duration)
      ensures leased.Some? <==> Leasable(old(rows), q, id, now)
      ensures leased.Some? <==> id in old(rows) && old(rows)[id].queue == q && old(rows)[id].timeout <= now && old(rows)[id].received == 0
      ensures leased.Some? ==> && leased.value == old(rows[id].body)
                               && rows == old(rows)[id := old(rows)[id].(received := 1, timeout := now + duration)]
      ensures leased.None? ==> rows == old(rows)
    {
      if id !in rows || rows[id].queue != q || rows[id].timeout > now || rows[id].received >= MAX_RECEIVE {
        return None;
      }
      var row := rows[id];
      rows := rows[id := row.(received := row.received + 1, timeout := now + duration)];
      return Some(row.body);
    }

    method ReleaseLease(q: QueueName, id: MsgId, now: int)
      modifies this
      ensures rows == Rearmed(old(rows), q, id, now - RELEASE_OFFSET)
      ensures On(old(rows), q, id) ==> rows == old(rows)[id := old(rows)[id].(received := 0, timeout := now - 1000)]
      ensures !On(old(rows), q, id) ==> rows == old(rows)
    {
      Defer(q, id, -RELEASE_OFFSET, now);
    }

    method Defer(q: QueueName, id: MsgId, delay: int, now: int)
      modifies this
      ensures rows == Rearmed(old(rows), q, id, now + delay)
      ensures On(old(rows), q, id) ==> rows == old(rows)[id := old(rows)[id].(received := 0, timeout := now + delay)]
      ensures !On(old(rows), q, id) ==> rows == old(rows)
    {
      if id in rows && rows[id].queue == q {
        rows := rows[id := rows[id].(timeout := now + delay, received := 0)];
      }
    }

    method Extend(q: QueueName, id: MsgId, duration: int, now: int)
      modifies this
      ensures rows == Extended(old(rows), q, id, now + duration)
      ensures rows == if On(old(rows), q, id) then old(rows)[id := old(rows)[id].(timeout := now + duration)] else old(rows)
    {
      if id in rows && rows[id].queue == q {
        rows := rows[id := rows[id].(timeout := now + duration)];
      }
    }

    method UpdateBody(q: QueueName, id: MsgId, body: Body)
      modifies this
      ensures rows == Rewritten(old(rows), q, id, body)
      ensures rows == if On(old(rows), q, id) then old(rows)[id := old(rows)[id].(body := body)] else old(rows)
    {
      if id in rows && rows[id].queue == q {
        rows := rows[id := rows[id].(body := body)];
      }
    }

    method MoveTo(q: QueueName, dst: QueueName, id: MsgId, priority: int, newId: MsgId, now: int) returns (moved: bool)
      requires newId !in rows
      modifies this
      ensures rows == Moved(old(rows), q, dst, id, priority, newId, now)
      ensures moved <==> Leasable(old(rows), q, id, now)
      ensures moved ==> rows == (old(rows) - {id})[newId := Row(dst, old(rows)[id].body, priority, now, now, 0)]
      ensures !moved ==> rows == old(rows)
    {
      if id !in rows || rows[id].queue != q || rows[id].timeout > now || rows[id].received >= MAX_RECEIVE {
        return false;
      }
      var body := rows[id].body;
      rows := rows - {id};
      rows := rows[newId := Row(dst, body, priority, now, now, 0)];
      return true;
    }

    method DeleteBoth(q: QueueName, id: MsgId, other: QueueName, otherId: MsgId)
      modifies this
      ensures rows == BothDeleted(old(rows), q, id, other, otherId)
    {
      Delete(q, id);
      Delete(other, otherId);
    }

    method DeleteAndReleaseLease(q: QueueName, id: MsgId, other: QueueName, otherId: MsgId, now: int)
      modifies this
      ensures rows == DeletedAndReleased(old(rows), q, id, other, otherId, now)
    {
      Delete(q, id);
      ReleaseLease(other, otherId, now);
    }

    /** The release comes first here, with the same outcome. */
    method ReleaseLeaseAndDelete(q: QueueName, id: MsgId, other: QueueName, otherId: MsgId, now: int)
      modifies this
      ensures rows == DeletedAndReleased(old(rows), q, id, other, otherId, now)
    {
      ReleaseLease(other, otherId, now);
      Delete(q, id);
      assert rows == DeletedAndReleased(old(rows), q, id, other, otherId, now);
    }

    method LeaseAndSubmit(q: QueueName, id: MsgId, duration: int, dst: QueueName, env: Envelope, newId: MsgId, now: int)
      returns (leased: bool)
      requires newId !in rows
      modifies this
      ensures rows == LeasedAndSubmitted(old(rows), q, id, duration, dst, env, newId, now)
      ensures leased <==> Leasable(old(rows), q, id, now)
      ensures leased ==> rows == old(rows)[id := old(rows)[id].(received := 1, timeout := now + duration)]
                                          [newId := Row(dst, Decoded(env), env.priority, now, now, 0)]
      ensures !leased ==> rows == old(rows)
    {
      var body := LeaseByID(q, id, duration, now);
      if body.None? {
        return false;
      }
      Submit(dst, env, newId, now);
      return true;
    }
  }

  // --- Runs of the table: a row is delivered once ---

  /** Every way the table changes, with whatever clock reading the caller took. */
  datatype TableOp =
    | OpSubmit(q: QueueName, env: Envelope, newId: MsgId, now: int)
    | OpDelete(q: QueueName, id: MsgId)
    | OpLease(q: QueueName, id: MsgId, now: int, duration: int)
    | OpRearm(q: QueueName, id: MsgId, visibleAt: int)
    | OpExtend(q: QueueName, id: MsgId, until: int)
    | OpRewrite(q: QueueName, id: MsgId, body: Body)
    | OpMove(q: QueueName, dst: QueueName, id: MsgId, priority: int, newId: MsgId, now: int)

  function Apply(rows: Rows, op: TableOp): Rows {
    match op
    case OpSubmit(q, env, newId, now) =>
      if newId in rows then rows else Inserted(rows, newId, q, Decoded(env), env.priority, now)
    case OpDelete(q, id) => Deleted(rows, q, id)
    case OpLease(q, id, now, duration) => Leased(rows, q, id, now, duration)
    case OpRearm(q, id, visibleAt) => Rearmed(rows, q, id, visibleAt)
    case OpExtend(q, id, until) => Extended(rows, q, id, until)
    case OpRewrite(q, id, body) => Rewritten(rows, q, id, body)
    case OpMove(q, dst, id, priority, newId, now) =>
      if newId in rows then rows else Moved(rows, q, dst, id, priority, newId, now)
  }

  function Run(rows: Rows, ops: seq<TableOp>): Rows
    decreases |ops|
  {
    if ops == [] then rows else Run(Apply(rows, ops[0]), ops[1..])
  }

  /** `op` hands row `id` to a consumer: a lease, or a move that consumes it. */
  predicate Delivers(rows: Rows, op: TableOp, id: MsgId) {
    match op
    case OpLease(q, i, now, _) => i == id && Leasable(rows, q, i, now)
    case OpMove(q, _, i, _, newId, now) => i == id && newId !in rows && Leasable(rows, q, i, now)
    case _ => false
  }

  /** `op` gives row `id` its delivery back, or creates a row under that id. */
  predicate Renews(op: TableOp, id: MsgId) {
    match op
    case OpRearm(_, i, _) => i == id
    case OpSubmit(_, _, newId, _) => newId == id
    case OpMove(_, _, _, _, newId, _) => newId == id
    case _ => false
  }

  function Deliveries(rows: Rows, ops: seq<TableOp>, id: MsgId): nat
    decreases |ops|
  {
    if ops == [] then 0
    else (if Delivers(rows, ops[0], id) then 1 else 0) + Deliveries(Apply(rows, ops[0]), ops[1..], id)
  }

  function Renewals(ops: seq<TableOp>, id: MsgId): nat {
    if ops == [] then 0 else (if Renews(ops[0], id) then 1 else 0) + Renewals(ops[1..], id)
  }

  /** The delivery a row still has to give. */
  function Budget(rows: Rows, id: MsgId): nat {
    if id in rows && rows[id].received < MAX_RECEIVE then 1 else 0
  }

  /**
   Over every run and for arbitrary clock readings, a row is delivered at most
   once more than it was renewed: an expired lease alone never re-delivers.
   */
  lemma {:induction false} DeliveredOncePerRenewal(rows: Rows, ops: seq<TableOp>, id: MsgId)
    ensures Deliveries(rows, ops, id) <= Budget(rows, id) + Renewals(ops, id)
    decreases |ops|
  {
    if ops != [] {
      var op := ops[0];
      DeliveredOncePerRenewal(Apply(rows, op), ops[1..], id);
      assert (if Delivers(rows, op, id) then 1 else 0) + Budget(Apply(rows, op), id)
             <= Budget(rows, id) + (if Renews(op, id) then 1 else 0);
    }
  }

  /** A lease taken is kept: until it is renewed or deleted, no lease or move of that row succeeds, whatever the clock. */
  lemma {:induction false} LeaseIsExclusive(rows: Rows, ops: seq<TableOp>, id: MsgId)
    requires id in rows ==> rows[id].received >= MAX_RECEIVE
    requires Renewals(ops, id) == 0
    ensures Deliveries(rows, ops, id) == 0
    ensures var after := Run(rows, ops); id in after ==> after[id].received >= MAX_RECEIVE
    decreases |ops|
  {
    if ops != [] {
      LeaseIsExclusive(Apply(rows, ops[0]), ops[1..], id);
    }
  }

  /** When a row can next be leased, after each operation that names it. */
  lemma LeasableFromExactly(rows: Rows, op: TableOp, id: MsgId, q: QueueName, t: int)
    ensures var can := Leasable(Apply(rows, op), q, id, t);
            match op {
              case OpSubmit(src, _, newId, now) => id == newId && id !in rows ==> (can <==> q == src && t >= now)
              case OpLease(src, i, now, _) => i == id && Leasable(rows, src, id, now) ==> !can
              case OpRearm(src, i, visibleAt) => i == id && On(rows, src, id) ==> (can <==> q == src && t >= visibleAt)
              case OpExtend(src, i, until) =>
                i == id && On(rows, src, id) ==> (can <==> q == src && t >= until && rows[id].received == 0)
              case OpMove(src, dst, i, _, newId, now) =>
                newId !in rows && Leasable(rows, src, i, now) && id in {i, newId} ==> (can <==> id == newId && q == dst && t >= now)
              case OpDelete(src, i) => i == id && On(rows, src, id) ==> !can
              case OpRewrite(_, _, _) => can <==> Leasable(rows, q, id, t)
            }
  {
  }

  /** Where a row's content comes from: itself, a rewrite that named it, the envelope submitted, or the row moved. */
  lemma ContentIsKept(rows: Rows, op: TableOp, id: MsgId)
    requires id in Apply(rows, op)
    ensures var row := Apply(rows, op)[id];
            if id in rows then row.body == if op.OpRewrite? && op.id == id && rows[id].queue == op.q then op.body else rows[id].body
            else if op.OpSubmit? then
              id == op.newId && row.queue == op.q && row.body == Decoded(op.env) && row.priority == op.env.priority && row.created == op.now
            else
              && op.OpMove? && id == op.newId && op.id in rows && row.queue == op.dst && row.body == rows[op.id].body
              && row.priority == op.priority && row.created == op.now
  {
  }

  /** A release, a defer, a lease or a body rewrite never moves a row in its queue's order. */
  lemma OrderKeysAreStable(rows: Rows, op: TableOp, id: MsgId)
    requires id in rows && id in Apply(rows, op)
    ensures var was, now := rows[id], Apply(rows, op)[id];
            was.queue == now.queue && was.priority == now.priority && was.created == now.created
  {
  }
}
