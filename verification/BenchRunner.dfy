/**
 One worker's benchmark queue: what is queued once only, what runs next, and how
 many failures a measurement may cost before its verdict is recorded.
 */
module BenchRunner {
  import opened Wrappers

  type Name = string

  const MAX_ATTEMPTS: nat := 3

  /** Seconds to wait before the next try, by failures spent. */
  const BACKOFF: seq<nat> := [30, 300]

  datatype Key = Key(model: Name, devices: Name)

  datatype Task = Task(key: Key, attempts: nat, readyAt: int)

  /** How a benchmark ended. */
  datatype Outcome =
    | Measured
    | Incapable     // the worker cannot run the model, or the payload is worthless
    | WorkerGone    // no worker, no payload author, gate lost or stopped: no row
    | ModelGone     // not in the catalogue yet
    | Busy          // the device set could not be cleared
    | Transient

  datatype Verdict = MeasuredRow(key: Key) | IncapableRow(key: Key)

  /** `back` says the running task has been queued again. */
  datatype Runner = Runner(queue: seq<Task>, current: Option<Task>, back: bool, rows: seq<Verdict>)

  const IDLE := Runner([], None, false, [])

  predicate Queued(q: seq<Task>, key: Key) { exists i :: 0 <= i < |q| && q[i].key == key }

  predicate Pending(r: Runner, key: Key) { Queued(r.queue, key) || (r.current.Some? && r.current.value.key == key) }

  function Enqueued(r: Runner, key: Key): Runner {
    if Pending(r, key) then r else r.(queue := r.queue + [Task(key, 0, 0)])
  }

  predicate Due(t: Task, now: int) { t.readyAt <= now }

  predicate FirstDue(q: seq<Task>, now: int, i: nat) {
    i < |q| && Due(q[i], now) && forall j :: 0 <= j < i ==> !Due(q[j], now)
  }

  function Popped(r: Runner, i: nat): Runner
    requires i < |r.queue|
  {
    r.(queue := r.queue[..i] + r.queue[i + 1..], current := Some(r.queue[i]), back := false)
  }

  function Requeued(r: Runner, t: Task, readyAt: int): Runner {
    r.(queue := r.queue + [t.(readyAt := readyAt)], back := true)
  }

  /** What the end of the running task's benchmark does, before it is marked finished. */
  function Ended(r: Runner, outcome: Outcome, now: int): Runner
    requires r.current.Some?
  {
    var t := r.current.value;
    match outcome
    case Measured => r.(rows := r.rows + [MeasuredRow(t.key)])
    case Incapable => r.(rows := r.rows + [IncapableRow(t.key)])
    case WorkerGone => r
    case ModelGone => Requeued(r, t, now + BACKOFF[0])
    case Busy => Requeued(r, t, now + BACKOFF[0])
    case Transient =>
      if t.attempts + 1 >= MAX_ATTEMPTS then r.(rows := r.rows + [IncapableRow(t.key)])
      else Requeued(r, t.(attempts := t.attempts + 1), now + BACKOFF[if t.attempts < |BACKOFF| - 1 then t.attempts else |BACKOFF| - 1])
  }

  /** The tasks of other models, in order. */
  function Without(q: seq<Task>, model: Name): seq<Task> {
    if q == [] then []
    else if q[0].key.model != model then [q[0]] + Without(q[1..], model)
    else Without(q[1..], model)
  }

  lemma {:induction false} WithoutIsTheRest(q: seq<Task>, model: Name)
    ensures forall t :: t in Without(q, model) <==> t in q && t.key.model != model
  {
    if q != [] {
      WithoutIsTheRest(q[1..], model);
      assert forall t :: t in q <==> t == q[0] || t in q[1..];
    }
  }

  /** In the order they were in. */
  lemma {:induction false} WithoutJoins(a: seq<Task>, b: seq<Task>, model: Name)
    ensures Without(a + b, model) == Without(a, model) + Without(b, model)
    decreases |a|
  {
    if a == [] {
      assert a + b == b;
    } else {
      assert (a + b)[0] == a[0] && (a + b)[1..] == a[1..] + b;
      WithoutJoins(a[1..], b, model);
    }
  }

  lemma {:induction false} WithoutOneMore(q: seq<Task>, t: Task, model: Name)
    ensures Without(q + [t], model) == Without(q, model) + if t.key.model != model then [t] else []
  {
    if q == [] {
      assert q + [t] == [t];
    } else {
      WithoutOneMore(q[1..], t, model);
      assert (q + [t])[1..] == q[1..] + [t];
    }
  }

  // --- The mutex-guarded runner ---

  class BenchQueue {
    var queue: seq<Task>
    var current: Option<Task>
    var rows: seq<Verdict>
    ghost var back: bool

    ghost function View(): Runner
      reads this
    {
      Runner(queue, current, back, rows)
    }

    constructor ()
      ensures View() == IDLE
    {
      queue, current, rows, back := [], None, [], false;
    }

    method Enqueue(key: Key) returns (dup: bool)
      modifies this
      ensures dup <==> old(Pending(View(), key))
      ensures View() == Enqueued(old(View()), key)
    {
      dup := current.Some? && current.value.key == key;
      for i := 0 to |queue|
        invariant dup ==> Pending(View(), key)
        invariant !dup ==> !(current.Some? && current.value.key == key) && forall j :: 0 <= j < i ==> queue[j].key != key
        invariant View() == old(View())
      {
        if queue[i].key == key {
          dup := true;
          break;
        }
      }
      if !dup {
        queue := queue + [Task(key, 0, 0)];
      }
    }

    /** A due task if there is one, the first in queue order; otherwise the exact least wait, or none for an empty queue. */
    method Next(now: int) returns (task: Option<Task>, wait: int, any: bool)
      modifies this
      ensures any <==> old(queue) != []
      ensures task.Some? <==> exists i :: 0 <= i < |old(queue)| && old(queue)[i].readyAt <= now
      ensures task.Some? ==> exists i: nat :: FirstDue(old(queue), now, i) && View() == Popped(old(View()), i) && task == current
                                                     && queue == old(queue)[..i] + old(queue)[i + 1..] && task == Some(old(queue)[i])
                                                     && rows == old(rows) && old(queue)[i].readyAt <= now
                                                     && forall j :: 0 <= j < i ==> old(queue)[j].readyAt > now
      ensures task.None? ==> View() == old(View())
      ensures any && task.None? ==> && (exists i :: 0 <= i < |queue| && wait == queue[i].readyAt - now)
                                    && (forall i :: 0 <= i < |queue| ==> 0 < wait <= queue[i].readyAt - now)
    {
      if |queue| == 0 {
        return None, 0, false;
      }
      var soonest := -1;
      for i := 0 to |queue|
        invariant View() == old(View())
        invariant forall j :: 0 <= j < i ==> !Due(queue[j], now)
        invariant i == 0 <==> soonest == -1
        invariant i > 0 ==> exists j :: 0 <= j < i && soonest == queue[j].readyAt - now
        invariant forall j :: 0 <= j < i ==> 0 < soonest <= queue[j].readyAt - now
      {
        var t := queue[i];
        if t.readyAt <= now {
          assert FirstDue(old(queue), now, i);
          queue := queue[..i] + queue[i + 1..];
          current, back := Some(t), false;
          return Some(t), 0, true;
        }
        var d := t.readyAt - now;
        if soonest < 0 || d < soonest {
          soonest := d;
        }
      }
      return None, soonest, true;
    }

    method Requeue(t: Task, now: int, delay: nat)
      modifies this
      ensures View() == Requeued(old(View()), t, now + delay)
    {
      queue := queue + [t.(readyAt := now + delay)];
      back := true;
    }

    method RetryOrRecord(now: int)
      requires current.Some?
      modifies this
      ensures View() == Ended(old(View()), Transient, now)
    {
      var t := current.value.(attempts := current.value.attempts + 1);
      if t.attempts >= MAX_ATTEMPTS {
        rows := rows + [IncapableRow(t.key)];
        return;
      }
      Requeue(t, now, BACKOFF[if t.attempts - 1 < |BACKOFF| - 1 then t.attempts - 1 else |BACKOFF| - 1]);
    }

    /** The end of one benchmark, by how it went. */
    method RunOne(outcome: Outcome, now: int)
      requires current.Some?
      modifies this
      ensures View() == Ended(old(View()), outcome, now)
    {
      match outcome
      case Measured => rows := rows + [MeasuredRow(current.value.key)];
      case Incapable => rows := rows + [IncapableRow(current.value.key)];
      case WorkerGone =>
      case ModelGone => Requeue(current.value, now, BACKOFF[0]);
      case Busy => Requeue(current.value, now, BACKOFF[0]);
      case Transient => RetryOrRecord(now);
    }

    method Finish()
      modifies this
      ensures View() == old(View()).(current := None, back := false)
    {
      current, back := None, false;
    }

    method CancelModel(model: Name)
      modifies this
      ensures View() == old(View()).(queue := Without(old(queue), model))
    {
      var kept: seq<Task> := [];
      for i := 0 to |queue|
        invariant View() == old(View())
        invariant kept == Without(queue[..i], model)
      {
        assert queue[..i + 1] == queue[..i] + [queue[i]];
        WithoutOneMore(queue[..i], queue[i], model);
        if queue[i].key.model != model {
          kept := kept + [queue[i]];
        }
      }
      assert queue[..|queue|] == queue;
      queue := kept;
    }
  }

  // --- Runs ---

  datatype Step =
    | Add(key: Key)
    | Pop(now: int)
    | End(outcome: Outcome, now: int)
    | Done
    | Cancel(model: Name)

  /** A run, with the transient failures seen, the verdicts they exhausted into, and the failures forgotten with a task. */
  datatype State = State(r: Runner, ended: bool, failures: nat, exhausted: nat, forgotten: nat)

  const START := State(IDLE, false, 0, 0, 0)

  ghost predicate Enabled(s: State, c: Step) {
    match c
    case Add(_) => true
    case Pop(now) => s.r.current.None? && exists i :: 0 <= i < |s.r.queue| && Due(s.r.queue[i], now)
    case End(_, _) => s.r.current.Some? && !s.ended
    case Done => s.r.current.Some? && s.ended
    case Cancel(_) => true
  }

  function Spent(q: seq<Task>): nat { if q == [] then 0 else q[0].attempts + Spent(q[1..]) }

  ghost function Next(s: State, c: Step): State
    requires Enabled(s, c)
  {
    match c
    case Add(key) => s.(r := Enqueued(s.r, key))
    case Pop(now) =>
      FirstDueExists(s.r.queue, now);
      var i: nat :| FirstDue(s.r.queue, now, i);
      s.(r := Popped(s.r, i), ended := false)
    case End(outcome, now) =>
      var t := s.r.current.value;
      var n := s.(r := Ended(s.r, outcome, now), ended := true);
      if outcome.Transient? then
        if t.attempts + 1 >= MAX_ATTEMPTS then n.(failures := s.failures + 1, exhausted := s.exhausted + 1)
        else n.(failures := s.failures + 1)
      else if outcome.ModelGone? || outcome.Busy? then n
      else n.(forgotten := s.forgotten + t.attempts)
    case Done => s.(r := s.r.(current := None, back := false), ended := false)
    case Cancel(model) =>
      CancelForgets(s.r.queue, model);
      s.(r := s.r.(queue := Without(s.r.queue, model)), forgotten := s.forgotten + (Spent(s.r.queue) - Spent(Without(s.r.queue, model))))
  }

  ghost predicate ValidRun(s: State, steps: seq<Step>)
    decreases |steps|
  {
    steps == [] || (Enabled(s, steps[0]) && ValidRun(Next(s, steps[0]), steps[1..]))
  }

  ghost function Exec(s: State, steps: seq<Step>): State
    requires ValidRun(s, steps)
    decreases |steps|
  {
    if steps == [] then s else Exec(Next(s, steps[0]), steps[1..])
  }

  lemma {:induction false} FirstDueExists(q: seq<Task>, now: int)
    requires exists i :: 0 <= i < |q| && Due(q[i], now)
    ensures exists i: nat :: FirstDue(q, now, i)
    decreases |q|
  {
    if Due(q[0], now) {
      assert FirstDue(q, now, 0);
    } else {
      var k :| 0 <= k < |q| && Due(q[k], now);
      assert q[1..][k - 1] == q[k];
      FirstDueExists(q[1..], now);
      var i: nat :| FirstDue(q[1..], now, i);
      assert forall j :: 1 <= j < i + 1 ==> q[j] == q[1..][j - 1];
      assert FirstDue(q, now, i + 1);
    }
  }

  lemma {:induction false} CancelForgets(q: seq<Task>, model: Name)
    ensures Spent(Without(q, model)) <= Spent(q)
    decreases |q|
  {
    if q != [] {
      CancelForgets(q[1..], model);
      if q[0].key.model != model {
        assert Without(q, model) == [q[0]] + Without(q[1..], model);
        assert ([q[0]] + Without(q[1..], model))[1..] == Without(q[1..], model);
      }
    }
  }

  lemma {:induction false} SpentJoins(a: seq<Task>, b: seq<Task>)
    ensures Spent(a + b) == Spent(a) + Spent(b)
    decreases |a|
  {
    if a == [] {
      assert a + b == b;
    } else {
      SpentJoins(a[1..], b);
      assert (a + b)[1..] == a[1..] + b;
    }
  }

  predicate Distinct(q: seq<Task>) { forall i, j :: 0 <= i < j < |q| ==> q[i].key != q[j].key }

  predicate Inv(s: State) {
    && Distinct(s.r.queue)
    && (forall i :: 0 <= i < |s.r.queue| ==> s.r.queue[i].attempts < MAX_ATTEMPTS)
    && (s.r.current.Some? ==> s.r.current.value.attempts < MAX_ATTEMPTS)
    && (s.r.current.Some? && !s.r.back ==> !Queued(s.r.queue, s.r.current.value.key))
    && (s.r.back ==> s.ended)
    && (s.r.current.None? ==> !s.ended)
  }

  /** Attempts still on the books: those of the queued tasks and of a task whose benchmark is running. */
  function Live(s: State): nat {
    Spent(s.r.queue) + if s.r.current.Some? && !s.ended then s.r.current.value.attempts else 0
  }

  predicate Balanced(s: State) { s.failures == MAX_ATTEMPTS * s.exhausted + Live(s) + s.forgotten }

  lemma {:induction false} WithoutKeepsOrder(q: seq<Task>, model: Name)
    requires Distinct(q)
    ensures Distinct(Without(q, model))
    decreases |q|
  {
    if q != [] {
      assert forall i, j :: 0 <= i < j < |q[1..]| ==> q[1..][i] == q[i + 1] && q[1..][j] == q[j + 1];
      WithoutKeepsOrder(q[1..], model);
      var rest := Without(q[1..], model);
      WithoutIsTheRest(q[1..], model);
      forall k | 0 <= k < |rest|
        ensures rest[k].key != q[0].key
      {
        assert rest[k] in q[1..];
      }
    }
  }

  lemma StepKeepsInv(s: State, c: Step)
    requires Inv(s) && Enabled(s, c)
    ensures Inv(Next(s, c))
  {
    match c
    case Cancel(model) =>
      WithoutKeepsOrder(s.r.queue, model);
      var kept := Without(s.r.queue, model);
      WithoutIsTheRest(s.r.queue, model);
      forall i | 0 <= i < |kept|
        ensures kept[i].attempts < MAX_ATTEMPTS && Queued(s.r.queue, kept[i].key)
      {
        assert kept[i] in s.r.queue;
      }
    case End(outcome, now) => EndKeepsInv(s, outcome, now);
    case _ =>
  }

  lemma EndKeepsInv(s: State, outcome: Outcome, now: int)
    requires Inv(s) && Enabled(s, End(outcome, now))
    ensures Inv(Next(s, End(outcome, now)))
  {
  }

  lemma StepKeepsBalance(s: State, c: Step)
    requires Inv(s) && Balanced(s) && Enabled(s, c)
    ensures Balanced(Next(s, c))
  {
    match c
    case Add(key) => SpentJoins(s.r.queue, [Task(key, 0, 0)]);
    case Pop(now) => PopKeepsBalance(s, now);
    case End(outcome, now) => EndKeepsBalance(s, outcome, now);
    case Done =>
    case Cancel(model) => CancelForgets(s.r.queue, model);
  }

  lemma PopKeepsBalance(s: State, now: int)
    requires Inv(s) && Balanced(s) && Enabled(s, Pop(now))
    ensures Balanced(Next(s, Pop(now)))
  {
    var q, n := s.r.queue, Next(s, Pop(now));
    var i: nat :| i < |q| && Popped(s.r, i) == n.r;
    assert Popped(s.r, i).current == Some(q[i]);
    SpentWithout(q, i);
  }

  lemma SpentWithout(q: seq<Task>, i: nat)
    requires i < |q|
    ensures Spent(q) == q[i].attempts + Spent(q[..i] + q[i + 1..])
  {
    assert q == q[..i] + q[i..] && q[i..][1..] == q[i + 1..];
    SpentJoins(q[..i], q[i..]);
    SpentJoins(q[..i], q[i + 1..]);
  }

  lemma EndKeepsBalance(s: State, outcome: Outcome, now: int)
    requires Inv(s) && Balanced(s) && Enabled(s, End(outcome, now))
    ensures Balanced(Next(s, End(outcome, now)))
  {
    var q, n := s.r.queue, Next(s, End(outcome, now));
    if n.r.queue != q {
      var t := n.r.queue[|q|];
      assert n.r.queue == q + [t];
      SpentJoins(q, [t]);
      assert Spent([t]) == t.attempts;
    }
  }

  lemma {:induction false} RunKeeps(s: State, steps: seq<Step>)
    requires Inv(s) && Balanced(s) && ValidRun(s, steps)
    ensures Inv(Exec(s, steps)) && Balanced(Exec(s, steps))
    decreases |steps|
  {
    if steps != [] {
      StepKeepsInv(s, steps[0]);
      StepKeepsBalance(s, steps[0]);
      RunKeeps(Next(s, steps[0]), steps[1..]);
    }
  }

  /**
   On every run the queued (model, device set) keys are pairwise distinct and none
   has spent its budget; every transient failure is one of the three behind an
   exhausted verdict, still on a live task, or gone with a task that left.
   */
  lemma BudgetOnEveryRun(steps: seq<Step>)
    requires ValidRun(START, steps)
    ensures var s := Exec(START, steps);
            && Distinct(s.r.queue)
            && (forall i :: 0 <= i < |s.r.queue| ==> s.r.queue[i].attempts < MAX_ATTEMPTS)
            && s.failures == MAX_ATTEMPTS * s.exhausted + Live(s) + s.forgotten
  {
    RunKeeps(START, steps);
  }

  /** The try that follows: after half a minute at the attempts it had, or, after a failure of its own, at one more, the third only after five minutes. */
  function NextTry(t: Task, outcome: Outcome, now: int): seq<Task> {
    if outcome.ModelGone? || outcome.Busy? then [Task(t.key, t.attempts, now + 30)]
    else if outcome.Transient? && t.attempts == 0 then [Task(t.key, 1, now + 30)]
    else if outcome.Transient? && t.attempts == 1 then [Task(t.key, 2, now + 300)]
    else []
  }

  /** A failed measurement is tried again exactly when it cost nothing or its budget is not spent. */
  lemma TriedAgainExactly(s: State, outcome: Outcome, now: int)
    requires Inv(s) && Enabled(s, End(outcome, now))
    ensures var t := s.r.current.value; var n := Next(s, End(outcome, now));
            && (Queued(n.r.queue, t.key) <==> outcome.ModelGone? || outcome.Busy? || (outcome.Transient? && t.attempts < 2))
            && (IncapableRow(t.key) in n.r.rows[|s.r.rows|..] <==> outcome.Incapable? || (outcome.Transient? && t.attempts == 2))
            && (outcome.ModelGone? ==> n.failures == s.failures)
            && n.r.current == s.r.current
            && n.r.queue == s.r.queue + NextTry(t, outcome, now)
            && n.r.rows == s.r.rows + (match outcome
                 case Measured => [MeasuredRow(t.key)]
                 case Incapable => [IncapableRow(t.key)]
                 case Transient => if t.attempts >= 2 then [IncapableRow(t.key)] else []
                 case _ => [])
  {
    var t, n := s.r.current.value, Next(s, End(outcome, now));
    if |n.r.queue| == |s.r.queue| + 1 {
      assert n.r.queue[|s.r.queue|].key == t.key;
    }
    if |n.r.rows| == |s.r.rows| + 1 {
      assert n.r.rows[|s.r.rows|..] == [n.r.rows[|s.r.rows|]];
    }
  }

  /** Asking for a measurement always leaves it queued or running, once. */
  lemma AskedIsPendingOnce(s: State, key: Key)
    requires Inv(s)
    ensures Pending(Enqueued(s.r, key), key)
    ensures Distinct(Enqueued(s.r, key).queue)
    ensures Pending(s.r, key) ==> Enqueued(s.r, key) == s.r
    ensures !Pending(s.r, key) ==> Enqueued(s.r, key) == s.r.(queue := s.r.queue + [Task(key, 0, 0)])
    ensures Pending(s.r, key) <==> (exists t :: t in s.r.queue && t.key == key) || (s.r.current.Some? && s.r.current.value.key == key)
  {
    if !Pending(s.r, key) {
      assert Enqueued(s.r, key).queue[|s.r.queue|].key == key;
    }
  }
}
