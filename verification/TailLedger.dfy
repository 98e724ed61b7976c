/**
 The queued seconds each worker queue is credited with: the in-memory mirror that
 scoring reads, its durable copy, and the rows both account for.

 A row's move and the tail update that goes with it are one step here, and so is a whole
 re-estimation. [TailUpdates] has what landing apart does to the two copies, [TailRaces]
 what comes in between. Every write succeeds. Seconds are reals.
 */
module TailLedger {
  import opened FiniteSums
  import opened TailUpdates

  type Name = string
  type RowId = nat

  /** The rows one full walk of a queue sees. */
  const PEEK_ALL_LIMIT: nat := 256

  datatype Tail = Tail(seconds: real, model: Name)

  type Tails = map<Name, Tail>

  // --- One tail update ---

  /** A delta to one queue, clamped at zero; unknown queues are left alone. */
  function Added(tails: Tails, q: Name, delta: real): Tails {
    if q in tails then tails[q := tails[q].(seconds := Max0(tails[q].seconds + delta))] else tails
  }

  function AddedWithModel(tails: Tails, q: Name, delta: real, model: Name): Tails {
    if q in tails then tails[q := Tail(Max0(tails[q].seconds + delta), model)] else tails
  }

  function Replaced(tails: Tails, q: Name, seconds: real, model: Name): Tails {
    if q in tails then tails[q := Tail(Max0(seconds), model)] else tails
  }

  /** A queue gets an empty tail unless it has one. */
  function Opened(tails: Tails, q: Name): Tails { if q in tails then tails else tails[q := Tail(0.0, "")] }

  /** Persisted tails fill in the queues the mirror does not have. */
  function Seeded(mirror: Tails, stored: Tails): Tails {
    map q | q in mirror.Keys + stored.Keys ::
      if q in mirror then mirror[q] else Tail(Max0(stored[q].seconds), stored[q].model)
  }

  /** A debit that lands before the credit it undoes is exact only if the tail could bear it. */
  lemma DebitBeforeCreditIsExactlyCovered(tails: Tails, q: Name, seconds: real)
    requires q in tails && seconds > 0.0 && tails[q].seconds >= 0.0
    ensures Added(Added(tails, q, seconds), q, -seconds) == tails
    ensures Added(Added(tails, q, -seconds), q, seconds) == tails <==> seconds <= tails[q].seconds
  {
    var late := Added(Added(tails, q, -seconds), q, seconds);
    assert Added(Added(tails, q, seconds), q, -seconds) == tails;
    assert late == tails <==> late[q] == tails[q];
  }

  /** The mirror and the persisted rows, updated by the same calls. */
  class Ledger {
    var tails: Tails
    var stored: Tails

    constructor (persisted: Tails)
      ensures tails == map[] && stored == persisted
    {
      tails, stored := map[], persisted;
    }

    method CreditTail(queue: Name, delta: real, model: Name)
      modifies this
      ensures tails == AddedWithModel(old(tails), queue, delta, model)
      ensures stored == AddedWithModel(old(stored), queue, delta, model)
      ensures queue in old(tails) ==> TailReplaced(old(tails), tails, queue, old(tails)[queue].seconds + delta) && tails[queue].model == model
      ensures queue in old(stored) ==> TailReplaced(old(stored), stored, queue, old(stored)[queue].seconds + delta) && stored[queue].model == model
      ensures (queue !in old(tails) ==> tails == old(tails)) && (queue !in old(stored) ==> stored == old(stored))
    {
      if queue in tails {
        tails := tails[queue := Tail(Max0(tails[queue].seconds + delta), model)];
      }
      AddTailSecondsAndSetModel(queue, delta, model);
    }

    method DebitTail(queue: Name, delta: real)
      modifies this
      ensures tails == Added(old(tails), queue, -delta)
      ensures stored == Added(old(stored), queue, -delta)
      ensures queue in old(tails) ==> && TailReplaced(old(tails), tails, queue, old(tails)[queue].seconds - delta)
                                      && tails[queue].model == old(tails)[queue].model
      ensures queue in old(stored) ==> && TailReplaced(old(stored), stored, queue, old(stored)[queue].seconds - delta)
                                       && stored[queue].model == old(stored)[queue].model
      ensures (queue !in old(tails) ==> tails == old(tails)) && (queue !in old(stored) ==> stored == old(stored))
    {
      if queue in tails {
        var t := tails[queue];
        tails := tails[queue := t.(seconds := Max0(t.seconds - delta))];
      }
      AddTailSeconds(queue, -delta);
    }

    /** A reconnect must not zero a live tail, in either copy. */
    method Connect(queue: Name)
      modifies this
      ensures tails == Opened(old(tails), queue)
      ensures stored == Opened(old(stored), queue)
      ensures tails == if queue in old(tails) then old(tails) else old(tails)[queue := Tail(0.0, "")]
      ensures stored == if queue in old(stored) then old(stored) else old(stored)[queue := Tail(0.0, "")]
    {
      if queue !in tails {
        tails := tails[queue := Tail(0.0, "")];
      }
      UpsertWorkerQueueState(queue);
    }

    method RecoverPersistedQueues()
      modifies this
      ensures tails == Seeded(old(tails), stored)
      ensures stored == old(stored)
      ensures forall q :: q in tails <==> q in old(tails) || q in stored
      ensures forall q :: q in old(tails) ==> tails[q] == old(tails)[q]
      ensures forall q :: q in stored && q !in old(tails) && stored[q].seconds >= 0.0 ==> tails[q] == stored[q]
    {
      var left := stored.Keys;
      while left != {}
        invariant left <= stored.Keys && stored == old(stored)
        invariant tails == map q | q in old(tails).Keys + (stored.Keys - left) ::
                             if q in old(tails) then old(tails)[q] else Tail(Max0(stored[q].seconds), stored[q].model)
        decreases left
      {
        var q :| q in left;
        left := left - {q};
        if q !in tails {
          tails := tails[q := Tail(Max0(stored[q].seconds), stored[q].model)];
        }
      }
    }

    method RemoveWorkerQueue(queue: Name)
      modifies this
      ensures tails == old(tails) - {queue}
      ensures stored == old(stored) - {queue}
    {
      tails := tails - {queue};
      stored := stored - {queue};
    }

    /** Replaces a tail by what the walk over the queue's rows came to. */
    method ReestimateWorkerQueue(queue: Name, rows: seq<Peeked>, resident: Name, price: (Peeked, Name) -> real)
      returns (rewritten: seq<Peeked>)
      modifies this
      ensures rewritten == Walked(rows, resident, price)
      ensures tails == Replaced(old(tails), queue, Total(rewritten), LastModel(rows, ""))
      ensures stored == Replaced(old(stored), queue, Total(rewritten), LastModel(rows, ""))
      ensures PricedByIndex(rows, rewritten, resident, price)
      ensures queue in old(tails) ==> TailReplaced(old(tails), tails, queue, Total(rewritten)) && LeftBy(rows, "", |rows|, tails[queue].model)
      ensures queue in old(stored) ==> TailReplaced(old(stored), stored, queue, Total(rewritten)) && LeftBy(rows, "", |rows|, stored[queue].model)
      ensures (queue !in old(tails) ==> tails == old(tails)) && (queue !in old(stored) ==> stored == old(stored))
    {
      var sum, tailModel;
      rewritten, sum, tailModel := Walk(rows, resident, price);
      if queue in tails {
        tails := tails[queue := Tail(Max0(sum), tailModel)];
      }
      SetTailSeconds(queue, sum, tailModel);
    }

    // --- The store ---

    method UpsertWorkerQueueState(queue: Name)
      modifies this`stored
      ensures stored == Opened(old(stored), queue)
      ensures stored == if queue in old(stored) then old(stored) else old(stored)[queue := Tail(0.0, "")]
    {
      if queue !in stored {
        stored := stored[queue := Tail(0.0, "")];
      }
    }

    method AddTailSeconds(queue: Name, delta: real)
      modifies this`stored
      ensures stored == Added(old(stored), queue, delta)
      ensures queue in old(stored) ==> && TailReplaced(old(stored), stored, queue, old(stored)[queue].seconds + delta)
                                       && stored[queue].model == old(stored)[queue].model
      ensures queue !in old(stored) ==> stored == old(stored)
    {
      if queue in stored {
        stored := stored[queue := stored[queue].(seconds := Max0(stored[queue].seconds + delta))];
      }
    }

    method AddTailSecondsAndSetModel(queue: Name, delta: real, model: Name)
      modifies this`stored
      ensures stored == AddedWithModel(old(stored), queue, delta, model)
      ensures queue in old(stored) ==> TailReplaced(old(stored), stored, queue, old(stored)[queue].seconds + delta) && stored[queue].model == model
      ensures queue !in old(stored) ==> stored == old(stored)
    {
      if queue in stored {
        stored := stored[queue := Tail(Max0(stored[queue].seconds + delta), model)];
      }
    }

    method SetTailSeconds(queue: Name, value: real, model: Name)
      modifies this`stored
      ensures stored == Replaced(old(stored), queue, value, model)
      ensures queue in old(stored) ==> TailReplaced(old(stored), stored, queue, value) && stored[queue].model == model
      ensures queue !in old(stored) ==> stored == old(stored)
    {
      var v := if value < 0.0 then 0.0 else value;
      if queue in stored {
        stored := stored[queue := Tail(v, model)];
      }
    }
  }

  /** One queue's seconds are replaced, down to zero; no other queue differs. */
  ghost predicate TailReplaced(was: Tails, now: Tails, q: Name, seconds: real) {
    && now.Keys == was.Keys && q in now
    && (forall x :: x in was && x != q ==> now[x] == was[x])
    && now[q].seconds == (if seconds < 0.0 then 0.0 else seconds)
  }

  // --- The re-estimation walk ---

  /** A row as the walk sees it. */
  datatype Peeked = Peeked(id: RowId, leased: bool, model: Name, seconds: real)

  /** The model resident once the row has run. */
  function After(row: Peeked, resident: Name): Name { if row.model != "" then row.model else resident }

  /** A leased row keeps its seconds; any other is priced against the resident model. */
  function Priced(row: Peeked, resident: Name, price: (Peeked, Name) -> real): Peeked {
    if row.leased then row else row.(seconds := price(row, resident))
  }

  /** Every row, priced against the model the rows before it leave resident. */
  function Walked(rows: seq<Peeked>, resident: Name, price: (Peeked, Name) -> real): (r: seq<Peeked>)
    ensures |r| == |rows|
  {
    if rows == [] then [] else [Priced(rows[0], resident, price)] + Walked(rows[1..], After(rows[0], resident), price)
  }

  function Total(rows: seq<Peeked>): real { if rows == [] then 0.0 else rows[0].seconds + Total(rows[1..]) }

  /** The last model any row names, or else `none`. */
  function LastModel(rows: seq<Peeked>, none: Name): Name {
    if rows == [] then none else LastModel(rows[1..], After(rows[0], none))
  }

  lemma {:induction false} TotalOfOneMore(rows: seq<Peeked>, row: Peeked)
    ensures Total(rows + [row]) == Total(rows) + row.seconds
  {
    if rows == [] {
      assert rows + [row] == [row];
    } else {
      TotalOfOneMore(rows[1..], row);
      assert (rows + [row])[1..] == rows[1..] + [row];
    }
  }

  lemma {:induction false} LastOfOneMore(rows: seq<Peeked>, row: Peeked, none: Name)
    ensures LastModel(rows + [row], none) == After(row, LastModel(rows, none))
  {
    if rows == [] {
      assert rows + [row] == [row];
    } else {
      LastOfOneMore(rows[1..], row, After(rows[0], none));
      assert (rows + [row])[1..] == rows[1..] + [row];
    }
  }

  /** `m` is the model of the last row before `i` that names one, or `start` when none does. */
  ghost predicate LeftBy(rows: seq<Peeked>, start: Name, i: nat, m: Name)
    requires i <= |rows|
  {
    || (m == start && forall k :: 0 <= k < i ==> rows[k].model == "")
    || (m != "" && exists j :: 0 <= j < i && rows[j].model == m && forall k :: j < k < i ==> rows[k].model == "")
  }

  /** The walk's own running model is that one. */
  lemma {:induction false} LastModelIsLeft(rows: seq<Peeked>, start: Name, i: nat)
    requires i <= |rows|
    ensures LeftBy(rows, start, i, LastModel(rows[..i], start))
    decreases i
  {
    if i > 0 {
      LastModelIsLeft(rows, start, i - 1);
      assert rows[..i] == rows[..i - 1] + [rows[i - 1]];
      LastOfOneMore(rows[..i - 1], rows[i - 1], start);
    }
  }

  /** Only one model is left by the rows before. */
  lemma OneIsLeft(rows: seq<Peeked>, start: Name, i: nat, m: Name, n: Name)
    requires i <= |rows| && LeftBy(rows, start, i, m) && LeftBy(rows, start, i, n)
    ensures m == n
  {
  }

  /** What the walk makes of each row: a leased one stays, any other is priced against the model left by those before. */
  ghost predicate PricedByIndex(rows: seq<Peeked>, rewritten: seq<Peeked>, resident: Name, price: (Peeked, Name) -> real) {
    && |rewritten| == |rows|
    && (forall i, m :: 0 <= i < |rows| && !rows[i].leased && LeftBy(rows, resident, i, m) ==>
          rewritten[i] == rows[i].(seconds := price(rows[i], m)))
    && (forall i :: 0 <= i < |rows| && rows[i].leased ==> rewritten[i] == rows[i])
  }

  lemma {:induction false} WalkedAt(rows: seq<Peeked>, resident: Name, price: (Peeked, Name) -> real, i: nat)
    requires i < |rows|
    ensures Walked(rows, resident, price)[i] == Priced(rows[i], LastModel(rows[..i], resident), price)
    decreases |rows|
  {
    if i > 0 {
      WalkedAt(rows[1..], After(rows[0], resident), price, i - 1);
      assert rows[..i][1..] == rows[1..][..i - 1];
    }
  }

  lemma WalkedByIndex(rows: seq<Peeked>, resident: Name, price: (Peeked, Name) -> real)
    ensures PricedByIndex(rows, Walked(rows, resident, price), resident, price)
    ensures LeftBy(rows, "", |rows|, LastModel(rows, ""))
  {
    forall i | 0 <= i < |rows|
      ensures Walked(rows, resident, price)[i] == Priced(rows[i], LastModel(rows[..i], resident), price)
      ensures LeftBy(rows, resident, i, LastModel(rows[..i], resident))
    {
      WalkedAt(rows, resident, price, i);
      LastModelIsLeft(rows, resident, i);
    }
    forall i, m | 0 <= i < |rows| && LeftBy(rows, resident, i, m)
      ensures m == LastModel(rows[..i], resident)
    {
      OneIsLeft(rows, resident, i, m, LastModel(rows[..i], resident));
    }
    LastModelIsLeft(rows, "", |rows|);
    assert rows[..|rows|] == rows;
  }

  lemma {:induction false} WalkedOneMore(rows: seq<Peeked>, row: Peeked, resident: Name, price: (Peeked, Name) -> real)
    ensures Walked(rows + [row], resident, price)
         == Walked(rows, resident, price) + [Priced(row, LastModel(rows, resident), price)]
  {
    if rows == [] {
      assert rows + [row] == [row];
    } else {
      WalkedOneMore(rows[1..], row, After(rows[0], resident), price);
      assert (rows + [row])[1..] == rows[1..] + [row];
    }
  }

  method Walk(rows: seq<Peeked>, resident: Name, price: (Peeked, Name) -> real)
    returns (rewritten: seq<Peeked>, sum: real, tailModel: Name)
    ensures rewritten == Walked(rows, resident, price)
    ensures sum == Total(rewritten) && tailModel == LastModel(rows, "")
    ensures PricedByIndex(rows, rewritten, resident, price) && LeftBy(rows, "", |rows|, tailModel)
  {
    var residentID := resident;
    rewritten, sum, tailModel := [], 0.0, "";
    for i := 0 to |rows|
      invariant rewritten == Walked(rows[..i], resident, price) && sum == Total(rewritten)
      invariant tailModel == LastModel(rows[..i], "") && residentID == LastModel(rows[..i], resident)
    {
      var row := rows[i];
      assert rows[..i + 1] == rows[..i] + [row];
      WalkedOneMore(rows[..i], row, resident, price);
      LastOfOneMore(rows[..i], row, "");
      LastOfOneMore(rows[..i], row, resident);
      if !row.leased {
        row := row.(seconds := price(row, residentID));
      }
      TotalOfOneMore(rewritten, row);
      rewritten, sum := rewritten + [row], sum + row.seconds;
      if row.model != "" {
        tailModel, residentID := row.model, row.model;
      }
    }
    assert rows[..|rows|] == rows;
    WalkedByIndex(rows, resident, price);
  }

  // --- The rows and both copies of the tails ---

  datatype Row = Row(queue: Name, seconds: real, started: bool)

  datatype State = State(mirror: Tails, stored: Tails, rows: map<RowId, Row>, up: bool)

  const FRESH := State(map[], map[], map[], false)

  datatype Step =
    | Recover
    | Crash
    | Connect(queue: Name)
    | Disconnect(queue: Name)                          // also a recovered queue whose worker never returned
    | Place(id: RowId, queue: Name, seconds: real, model: Name)
    | Start(id: RowId)
    | Bounce(id: RowId)
    | Steal(id: RowId, to: Name, model: Name)
    | Evict(id: RowId)
    | Remove(id: RowId)                                // queued cancel, load failure, device-off drain, stream end, startup reap
    | Reestimate(queue: Name, prices: map<RowId, real>, model: Name)

  function RowsOn(rows: map<RowId, Row>, q: Name): set<RowId> { set id | id in rows && rows[id].queue == q }

  function SecondsOf(q: Name): (RowId, Row) -> real { (_: RowId, r: Row) => if r.queue == q then r.seconds else 0.0 }

  function WaitingOf(q: Name): (RowId, Row) -> real {
    (_: RowId, r: Row) => if r.queue == q && !r.started then r.seconds else 0.0
  }

  ghost function AllOn(rows: map<RowId, Row>, q: Name): real { Sum(rows, SecondsOf(q)) }

  /** The queued seconds of the rows on a queue that have not started. */
  ghost function WaitingOn(rows: map<RowId, Row>, q: Name): real { Sum(rows, WaitingOf(q)) }

  predicate Waiting(s: State, id: RowId) { s.up && id in s.rows && !s.rows[id].started && s.rows[id].queue in s.mirror }

  predicate Enabled(s: State, c: Step) {
    match c
    case Recover => !s.up
    case Crash => s.up
    case Connect(_) => true
    case Disconnect(q) => s.up && q in s.mirror && |RowsOn(s.rows, q)| <= PEEK_ALL_LIMIT
    case Place(id, q, seconds, _) => s.up && id !in s.rows && q in s.mirror && seconds >= 0.0
    case Start(id) => Waiting(s, id)
    case Bounce(id) => Waiting(s, id)
    case Steal(id, to, _) => Waiting(s, id) && to in s.mirror
    case Evict(id) => Waiting(s, id)
    case Remove(id) => id in s.rows
    case Reestimate(q, prices, _) =>
      && s.up && q in s.mirror && |RowsOn(s.rows, q)| <= PEEK_ALL_LIMIT
      && (forall id :: id in prices ==> prices[id] >= 0.0 && id in s.rows && s.rows[id].queue == q && !s.rows[id].started)
  }

  function Repriced(rows: map<RowId, Row>, prices: map<RowId, real>): map<RowId, Row> {
    map id | id in rows :: if id in prices then rows[id].(seconds := prices[id]) else rows[id]
  }

  ghost function Next(s: State, c: Step): State
    requires Enabled(s, c)
  {
    match c
    case Recover => s.(mirror := Seeded(s.mirror, s.stored), up := true)
    case Crash => s.(mirror := map[], up := false)
    case Connect(q) => s.(mirror := Opened(s.mirror, q), stored := Opened(s.stored, q))
    case Disconnect(q) => s.(mirror := s.mirror - {q}, stored := s.stored - {q}, rows := s.rows - RowsOn(s.rows, q))
    case Place(id, q, seconds, model) =>
      Credit(s, q, seconds, model).(rows := s.rows[id := Row(q, seconds, false)])
    case Start(id) => Debit(s, s.rows[id]).(rows := s.rows[id := s.rows[id].(started := true)])
    case Bounce(id) => s
    case Steal(id, to, model) =>
      Credit(Debit(s, s.rows[id]), to, s.rows[id].seconds, model).(rows := s.rows[id := s.rows[id].(queue := to)])
    case Evict(id) => Debit(s, s.rows[id]).(rows := s.rows - {id})
    case Remove(id) => s.(rows := s.rows - {id})
    case Reestimate(q, prices, model) =>
      var rows := Repriced(s.rows, prices);
      s.(mirror := Replaced(s.mirror, q, AllOn(rows, q), model), stored := Replaced(s.stored, q, AllOn(rows, q), model), rows := rows)
  }

  function Credit(s: State, q: Name, seconds: real, model: Name): State {
    s.(mirror := AddedWithModel(s.mirror, q, seconds, model), stored := AddedWithModel(s.stored, q, seconds, model))
  }

  function Debit(s: State, r: Row): State {
    s.(mirror := Added(s.mirror, r.queue, -r.seconds), stored := Added(s.stored, r.queue, -r.seconds))
  }

  /** A worker connecting before the persisted queues are recovered. */
  predicate Early(s: State, c: Step) { c.Connect? && !s.up }

  ghost predicate ValidRun(s: State, steps: seq<Step>)
    decreases |steps|
  {
    steps == [] || (Enabled(s, steps[0]) && !Early(s, steps[0]) && ValidRun(Next(s, steps[0]), steps[1..]))
  }

  ghost function Exec(s: State, steps: seq<Step>): State
    requires ValidRun(s, steps)
    decreases |steps|
  {
    if steps == [] then s else Exec(Next(s, steps[0]), steps[1..])
  }

  // --- What every step keeps ---

  ghost predicate Copied(s: State) { s.mirror == if s.up then s.stored else map[] }

  predicate Housed(s: State) {
    && (forall id :: id in s.rows ==> s.rows[id].seconds >= 0.0 && s.rows[id].queue in s.stored)
    && (forall q :: q in s.stored ==> s.stored[q].seconds >= 0.0)
  }

  ghost predicate Covered(s: State) { forall q :: q in s.stored ==> s.stored[q].seconds >= WaitingOn(s.rows, q) }

  ghost predicate Exact(s: State) { forall q :: q in s.stored ==> s.stored[q].seconds == WaitingOn(s.rows, q) }

  lemma StepKeepsCopies(s: State, c: Step)
    requires Copied(s) && Housed(s) && Enabled(s, c) && !Early(s, c)
    ensures Copied(Next(s, c)) && Housed(Next(s, c))
  {
    var n := Next(s, c);
    if c.Recover? {
      assert n.mirror == s.stored;
    }
  }

  /** How a step moves one queue's waiting seconds. */
  lemma WaitingMoves(s: State, c: Step, q: Name)
    requires Housed(s) && Enabled(s, c)
    ensures var was := WaitingOn(s.rows, q); var now := WaitingOn(Next(s, c).rows, q);
            match c {
              case Recover => now == was
              case Crash => now == was
              case Connect(_) => now == was
              case Disconnect(d) => q != d ==> now == was
              case Place(_, d, seconds, _) => now == was + if q == d then seconds else 0.0
              case Start(id) => now == was - if s.rows[id].queue == q then s.rows[id].seconds else 0.0
              case Bounce(_) => now == was
              case Steal(id, to, _) => now == was - (if s.rows[id].queue == q then s.rows[id].seconds else 0.0)
                                             + (if to == q then s.rows[id].seconds else 0.0)
              case Evict(id) => now == was - if s.rows[id].queue == q then s.rows[id].seconds else 0.0
              case Remove(id) => now == was - if s.rows[id].queue == q && !s.rows[id].started then s.rows[id].seconds else 0.0
              case Reestimate(d, _, _) => q != d ==> now == was
            }
  {
    var f := WaitingOf(q);
    match c
    case Disconnect(d) =>
      if q != d { LeaveOut(s.rows, RowsOn(s.rows, d), f); }
    case Place(id, d, seconds, _) => PutIn(s.rows, f, id, Row(d, seconds, false));
    case Start(id) => Replace(s.rows, f, id, s.rows[id].(started := true));
    case Steal(id, to, _) => Replace(s.rows, f, id, s.rows[id].(queue := to));
    case Evict(id) => TakeOut(s.rows, f, id);
    case Remove(id) => TakeOut(s.rows, f, id);
    case Reestimate(d, prices, _) =>
      if q != d {
        AtMost(s.rows, Repriced(s.rows, prices), f, f);
        AtMost(Repriced(s.rows, prices), s.rows, f, f);
      }
    case _ =>
  }

  lemma WaitingIsAtLeastOne(s: State, id: RowId)
    requires Housed(s) && id in s.rows && !s.rows[id].started
    ensures WaitingOn(s.rows, s.rows[id].queue) >= s.rows[id].seconds
  {
    var q := s.rows[id].queue;
    TakeOut(s.rows, WaitingOf(q), id);
    NotNegative(s.rows - {id}, q);
  }

  lemma NotNegative(rows: map<RowId, Row>, q: Name)
    requires forall id :: id in rows ==> rows[id].seconds >= 0.0
    ensures WaitingOn(rows, q) >= 0.0
  {
    ZeroOrAbove(rows, WaitingOf(q), 0.0);
  }

  /** Started rows only ever add to the whole sum. */
  lemma WaitingIsPartOfAll(rows: map<RowId, Row>, q: Name)
    requires forall id :: id in rows ==> rows[id].seconds >= 0.0
    ensures 0.0 <= WaitingOn(rows, q) <= AllOn(rows, q)
  {
    NotNegative(rows, q);
    AtMost(rows, rows, WaitingOf(q), SecondsOf(q));
  }

  lemma NoneWaiting(rows: map<RowId, Row>, q: Name)
    requires RowsOn(rows, q) == {}
    ensures WaitingOn(rows, q) == 0.0
  {
    forall id | id in rows
      ensures WaitingOf(q)(id, rows[id]) == 0.0
    {
      assert rows[id].queue == q ==> id in RowsOn(rows, q);
    }
    AllZero(rows, WaitingOf(q));
  }

  lemma NoneWaitingOnAClosedQueue(s: State, q: Name)
    requires Housed(s) && q !in s.stored
    ensures WaitingOn(s.rows, q) == 0.0
  {
    assert RowsOn(s.rows, q) == {};
    NoneWaiting(s.rows, q);
  }

  lemma StepKeepsCover(s: State, c: Step)
    requires Copied(s) && Housed(s) && Covered(s) && Enabled(s, c)
    ensures Covered(Next(s, c))
  {
    forall q | q in Next(s, c).stored
      ensures Next(s, c).stored[q].seconds >= WaitingOn(Next(s, c).rows, q)
    {
      StepKeepsCoverOn(s, c, q);
    }
  }

  lemma StepKeepsCoverOn(s: State, c: Step, q: Name)
    requires Copied(s) && Housed(s) && Covered(s) && Enabled(s, c) && q in Next(s, c).stored
    ensures Next(s, c).stored[q].seconds >= WaitingOn(Next(s, c).rows, q)
  {
    if c.Start? || c.Steal? || c.Evict? {
      DebitKeepsCover(s, c, q);
    } else {
      WaitingMoves(s, c, q);
      if c.Connect? && q !in s.stored {
        NoneWaitingOnAClosedQueue(s, q);
      } else if c.Remove? && !s.rows[c.id].started {
        WaitingIsAtLeastOne(s, c.id);
      } else if c.Reestimate? && q == c.queue {
        WaitingIsPartOfAll(Next(s, c).rows, q);
      }
    }
  }

  /** A debit takes no more than the row that leaves put in, so the clamp at zero never bites. */
  lemma DebitKeepsCover(s: State, c: Step, q: Name)
    requires Copied(s) && Housed(s) && Covered(s) && Enabled(s, c) && q in Next(s, c).stored
    requires c.Start? || c.Steal? || c.Evict?
    ensures Next(s, c).stored[q].seconds >= WaitingOn(Next(s, c).rows, q)
  {
    WaitingMoves(s, c, q);
    WaitingIsAtLeastOne(s, c.id);
  }

  /** A step that leaves no debt on the tail. */
  predicate Settles(s: State, c: Step) {
    && (c.Remove? && c.id in s.rows ==> s.rows[c.id].started || s.rows[c.id].seconds == 0.0)
    && (c.Reestimate? ==> forall id :: id in s.rows && s.rows[id].queue == c.queue && s.rows[id].started ==> s.rows[id].seconds == 0.0)
  }

  /**
   The tail stays the exact sum except when an unstarted row leaves without a
   debit, or a re-estimation counts rows that already started.
   */
  lemma StaysExactExactly(s: State, c: Step)
    requires Copied(s) && Housed(s) && Exact(s) && Enabled(s, c)
    ensures Exact(Next(s, c)) <==> Settles(s, c)
  {
    var n := Next(s, c);
    match c
    case Remove(id) =>
      WaitingMoves(s, c, s.rows[id].queue);
      forall q | Settles(s, c) && q in n.stored
        ensures n.stored[q].seconds == WaitingOn(n.rows, q)
      {
        WaitingMoves(s, c, q);
      }
    case Reestimate(d, prices, _) =>
      ReestimateIsExactExactly(n.rows, d);
      WaitingIsPartOfAll(n.rows, d);
      forall q | Settles(s, c) && q in n.stored
        ensures n.stored[q].seconds == WaitingOn(n.rows, q)
      {
        WaitingMoves(s, c, q);
      }
      if Exact(n) {
        assert n.stored[d].seconds == WaitingOn(n.rows, d);
        forall id | id in s.rows && s.rows[id].queue == d && s.rows[id].started
          ensures s.rows[id].seconds == 0.0
        {
          assert id in n.rows && n.rows[id] == s.rows[id];
        }
      }
    case _ =>
      forall q | q in n.stored
        ensures n.stored[q].seconds == WaitingOn(n.rows, q)
      {
        OtherStepsAreExact(s, c, q);
      }
  }

  lemma OtherStepsAreExact(s: State, c: Step, q: Name)
    requires Copied(s) && Housed(s) && Exact(s) && Enabled(s, c) && !c.Remove? && !c.Reestimate?
    requires q in Next(s, c).stored
    ensures Next(s, c).stored[q].seconds == WaitingOn(Next(s, c).rows, q)
  {
    WaitingMoves(s, c, q);
    match c
    case Connect(d) => if q !in s.stored { NoneWaitingOnAClosedQueue(s, q); }
    case Start(id) => WaitingIsAtLeastOne(s, id);
    case Steal(id, _, _) => WaitingIsAtLeastOne(s, id);
    case Evict(id) => WaitingIsAtLeastOne(s, id);
    case _ =>
  }

  lemma {:induction false} ReestimateIsExactExactly(rows: map<RowId, Row>, q: Name)
    requires forall id :: id in rows ==> rows[id].seconds >= 0.0
    ensures AllOn(rows, q) == WaitingOn(rows, q)
            <==> forall id :: id in rows && rows[id].queue == q && rows[id].started ==> rows[id].seconds == 0.0
    decreases |rows|
  {
    if rows != map[] {
      var id :| id in rows;
      TakeOut(rows, SecondsOf(q), id);
      TakeOut(rows, WaitingOf(q), id);
      var rest := rows - {id};
      WaitingIsPartOfAll(rest, q);
      ReestimateIsExactExactly(rest, q);
      assert forall x :: x in rows && x != id ==> x in rest && rest[x] == rows[x];
    }
  }

  // --- On every run ---

  lemma {:induction false} RunKeeps(s: State, steps: seq<Step>)
    requires Copied(s) && Housed(s) && Covered(s) && ValidRun(s, steps)
    ensures Copied(Exec(s, steps)) && Housed(Exec(s, steps)) && Covered(Exec(s, steps))
    decreases |steps|
  {
    if steps != [] {
      StepKeepsCopies(s, steps[0]);
      StepKeepsCover(s, steps[0]);
      RunKeeps(Next(s, steps[0]), steps[1..]);
    }
  }

  /**
   On every run the mirror is the persisted copy, crashes and recoveries included,
   and never below the queued seconds of the rows still waiting.
   */
  lemma TailsOnEveryRun(steps: seq<Step>, q: Name)
    requires ValidRun(FRESH, steps)
    ensures var s := Exec(FRESH, steps);
            && (s.up ==> s.mirror == s.stored)
            && (q in s.stored ==> s.stored[q].seconds >= WaitingOn(s.rows, q))
  {
    RunKeeps(FRESH, steps);
    var s := Exec(FRESH, steps);
    assert Covered(s);
  }

  predicate MovesOnly(c: Step) { !c.Remove? && !c.Reestimate? }

  lemma {:induction false} RunStaysExact(s: State, steps: seq<Step>)
    requires Copied(s) && Housed(s) && Exact(s) && ValidRun(s, steps)
    requires forall c :: c in steps ==> MovesOnly(c)
    ensures Exact(Exec(s, steps))
    decreases |steps|
  {
    if steps != [] {
      assert steps[0] in steps;
      StepKeepsCopies(s, steps[0]);
      StaysExactExactly(s, steps[0]);
      RunStaysExact(Next(s, steps[0]), steps[1..]);
    }
  }

  /** On runs of placements, starts, bounces, steals, evictions, connects and restarts the tail is the exact sum. */
  lemma TailIsExactOnMoves(steps: seq<Step>, q: Name)
    requires ValidRun(FRESH, steps) && forall c :: c in steps ==> MovesOnly(c)
    ensures var s := Exec(FRESH, steps);
            q in s.stored ==> s.stored[q].seconds == WaitingOn(s.rows, q)
  {
    RunStaysExact(FRESH, steps);
    assert Exact(Exec(FRESH, steps));
  }

  /** A worker that connects before recovery leaves the mirror off its persisted tail, unless that tail was empty. */
  lemma EarlyConnectLosesExactly(s: State, q: Name)
    requires Copied(s) && Housed(s) && !s.up
    ensures Copied(Next(Next(s, Connect(q)), Recover)) <==> q !in s.stored || s.stored[q] == Tail(0.0, "")
  {
    var n := Next(Next(s, Connect(q)), Recover);
    assert n.mirror.Keys == n.stored.Keys;
    assert n.mirror[q] == Tail(0.0, "");
    if n.stored[q] == Tail(0.0, "") {
      assert n.mirror == n.stored;
    }
  }

  // --- The walk against the ledger ---

  /** The walk's rows are the queue's rows, each once. */
  predicate Lists(peeked: seq<Peeked>, rows: map<RowId, Row>, q: Name) {
    && (forall i, j :: 0 <= i < j < |peeked| ==> peeked[i].id != peeked[j].id)
    && (forall i :: 0 <= i < |peeked| ==> peeked[i].id in RowsOn(rows, q) && rows[peeked[i].id].seconds == peeked[i].seconds)
    && (forall id :: id in RowsOn(rows, q) ==> exists i :: 0 <= i < |peeked| && peeked[i].id == id)
  }

  lemma {:induction false} TotalIsAllOn(peeked: seq<Peeked>, rows: map<RowId, Row>, q: Name)
    requires Lists(peeked, rows, q)
    ensures Total(peeked) == AllOn(rows, q)
    decreases |peeked|
  {
    if peeked == [] {
      assert RowsOn(rows, q) == {};
      forall id | id in rows
        ensures SecondsOf(q)(id, rows[id]) == 0.0
      {
        assert id !in RowsOn(rows, q);
      }
      AllZero(rows, SecondsOf(q));
    } else {
      var id, tail := peeked[0].id, peeked[1..];
      var rest := rows - {id};
      assert RowsOn(rest, q) == RowsOn(rows, q) - {id};
      forall x | x in RowsOn(rest, q)
        ensures exists i :: 0 <= i < |tail| && tail[i].id == x
      {
        var i :| 0 <= i < |peeked| && peeked[i].id == x;
        assert tail[i - 1].id == x;
      }
      TotalIsAllOn(tail, rest, q);
      TakeOut(rows, SecondsOf(q), id);
    }
  }

  /** What a re-estimation puts in the tail is the sum over the queue's rows, leased ones at their old price. */
  lemma ReestimateCountsTheQueue(peeked: seq<Peeked>, resident: Name, price: (Peeked, Name) -> real,
                                 rows: map<RowId, Row>, prices: map<RowId, real>, q: Name)
    requires Lists(peeked, rows, q)
    requires forall i :: 0 <= i < |peeked| ==>
                           if peeked[i].leased then peeked[i].id !in prices
                           else peeked[i].id in prices && prices[peeked[i].id] == Walked(peeked, resident, price)[i].seconds
    ensures Total(Walked(peeked, resident, price)) == AllOn(Repriced(rows, prices), q)
  {
    WalkIsListed(peeked, resident, price, rows, prices, q);
    TotalIsAllOn(Walked(peeked, resident, price), Repriced(rows, prices), q);
  }

  lemma WalkedKeeps(rows: seq<Peeked>, resident: Name, price: (Peeked, Name) -> real, i: nat)
    requires i < |rows|
    ensures var w := Walked(rows, resident, price)[i];
            w.id == rows[i].id && (rows[i].leased ==> w.seconds == rows[i].seconds)
  {
    WalkedAt(rows, resident, price, i);
  }

  lemma WalkIsListed(peeked: seq<Peeked>, resident: Name, price: (Peeked, Name) -> real,
                     rows: map<RowId, Row>, prices: map<RowId, real>, q: Name)
    requires Lists(peeked, rows, q)
    requires forall i :: 0 <= i < |peeked| ==>
                           if peeked[i].leased then peeked[i].id !in prices
                           else peeked[i].id in prices && prices[peeked[i].id] == Walked(peeked, resident, price)[i].seconds
    ensures Lists(Walked(peeked, resident, price), Repriced(rows, prices), q)
  {
    var w := Walked(peeked, resident, price);
    var repriced := Repriced(rows, prices);
    assert RowsOn(repriced, q) == RowsOn(rows, q);
    forall i | 0 <= i < |peeked|
      ensures w[i].id == peeked[i].id && w[i].id in RowsOn(repriced, q) && repriced[w[i].id].seconds == w[i].seconds
    {
      WalkedKeeps(peeked, resident, price, i);
      assert peeked[i].id in RowsOn(rows, q);
    }
    forall i, j | 0 <= i < j < |w|
      ensures w[i].id != w[j].id
    {
      assert peeked[i].id != peeked[j].id;
    }
    forall id | id in RowsOn(repriced, q)
      ensures exists i :: 0 <= i < |w| && w[i].id == id
    {
      assert id in RowsOn(rows, q);
      var i :| 0 <= i < |peeked| && peeked[i].id == id;
      assert w[i].id == id;
    }
  }
}
