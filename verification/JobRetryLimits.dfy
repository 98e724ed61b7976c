/**
 How far the retry bound reaches: past 256 attempts the byte that counts them wraps,
 and with load retries at all a stale one is counted twice.
 */
module JobRetryLimits {
  import opened EnvelopeCodec
  import opened JobExamples
  import opened JobProtocol
  import opened JobRetries
  import opened JobSafety
  import opened LeaseQueue
  import opened ResultStore

  // --- Counting along a run ---

  /** Some run leads from `s` to `t` over at least `n` resubmissions of the job; a clean one has no stale retry. */
  ghost predicate Reaches(clean: bool, s: State, t: State, n: nat) {
    exists steps: seq<Step> ::
      ValidRun(s, steps) && (clean ==> NoStaleRetry(s, steps)) && Exec(s, steps) == t && Resubmissions(s, steps, JOB) >= n
  }

  lemma {:induction false} Join(clean: bool, s: State, xs: seq<Step>, ys: seq<Step>)
    requires ValidRun(s, xs) && ValidRun(Exec(s, xs), ys)
    requires clean ==> NoStaleRetry(s, xs) && NoStaleRetry(Exec(s, xs), ys)
    ensures ValidRun(s, xs + ys) && Exec(s, xs + ys) == Exec(Exec(s, xs), ys)
    ensures clean ==> NoStaleRetry(s, xs + ys)
    ensures Resubmissions(s, xs + ys, JOB) == Resubmissions(s, xs, JOB) + Resubmissions(Exec(s, xs), ys, JOB)
    decreases |xs|
  {
    if xs == [] {
      assert xs + ys == ys;
    } else {
      assert (xs + ys)[0] == xs[0] && (xs + ys)[1..] == xs[1..] + ys;
      Join(clean, Next(s, xs[0]), xs[1..], ys);
    }
  }

  lemma Chain(clean: bool, s: State, t: State, u: State, m: nat, n: nat)
    requires Reaches(clean, s, t, m) && Reaches(clean, t, u, n)
    ensures Reaches(clean, s, u, m + n)
  {
    var xs: seq<Step> :| ValidRun(s, xs) && (clean ==> NoStaleRetry(s, xs)) && Exec(s, xs) == t && Resubmissions(s, xs, JOB) >= m;
    var ys: seq<Step> :| ValidRun(t, ys) && (clean ==> NoStaleRetry(t, ys)) && Exec(t, ys) == u && Resubmissions(t, ys, JOB) >= n;
    Join(clean, s, xs, ys);
  }

  predicate IsJobResubmission(s: State, c: Step) {
    IsResubmission(s, c) && s.tasks[c.t].env.requestID == JOB
  }

  lemma OneStep(clean: bool, s: State, c: Step)
    requires Enabled(s, c) && (clean ==> !Stale(s, c))
    ensures Reaches(clean, s, Next(s, c), if IsJobResubmission(s, c) then 1 else 0)
  {
    var n := Next(s, c);
    assert [c][0] == c && [c][1..] == [];
    assert ValidRun(n, []) && NoStaleRetry(n, []) && Resubmissions(n, [], JOB) == 0;
    assert ValidRun(s, [c]) && (clean ==> NoStaleRetry(s, [c])) && Exec(s, [c]) == n;
    assert Resubmissions(s, [c], JOB) == if IsJobResubmission(s, c) then 1 else 0;
  }

  // --- The moves of one job ---

  function Unplaced(env: Envelope, received: nat): Row { Row(Global, Decoded(env), 0, 0, 0, received) }

  function OnHost(env: Envelope, gid: MsgId, received: nat): Row {
    Row(Worker(HOST), Decoded(env.(globalMsgID := gid)), 0, 0, 0, received)
  }

  /** The job waits on the global queue and nothing has cancelled or answered it. */
  predicate Waits(s: State, g: MsgId, attempts: Byte) {
    && s.rows == map[g := Unplaced(JobEnv(attempts), 0)]
    && JOB in s.buffered && JOB in s.resubmits && JOB !in s.inflight
    && JOB in s.results && s.results[JOB].status == Pending
  }

  function OnWorker(s: State, g: MsgId, w: MsgId, attempts: Byte, received: nat): State {
    s.(rows := map[g := Unplaced(JobEnv(attempts), 1), w := OnHost(JobEnv(attempts), g, received)], used := s.used + {w})
  }

  function Loads(s: State, g: MsgId, w: MsgId, attempts: Byte, t: TaskId): State {
    OnWorker(s, g, w, attempts, 1).(tasks := s.tasks[t := Loading(w, HOST, JobEnv(attempts).(globalMsgID := g))])
  }

  lemma JobPlaced(s: State, g: MsgId, w: MsgId, attempts: Byte)
    requires Waits(s, g, attempts) && g != w && IsFresh(s, w)
    ensures Enabled(s, DoPlace(g, HOST, 0, w, 0, 0))
    ensures Next(s, DoPlace(g, HOST, 0, w, 0, 0)) == OnWorker(s, g, w, attempts, 0)
  {
    var n := Place(s, g, HOST, 0, w, 0, 0);
    assert Leasable(s.rows, Global, g, 0);
    assert n.rows[w] == OnHost(JobEnv(attempts), g, 0) && n.rows[g] == Unplaced(JobEnv(attempts), 1);
    assert n.rows == OnWorker(s, g, w, attempts, 0).rows;
  }

  lemma JobLeased(s: State, g: MsgId, w: MsgId, attempts: Byte, t: TaskId)
    requires Waits(s, g, attempts) && g != w && t !in s.tasks
    ensures var m := OnWorker(s, g, w, attempts, 0);
            Enabled(m, DoLease(w, HOST, t, 0, 0)) && Next(m, DoLease(w, HOST, t, 0, 0)) == Loads(s, g, w, attempts, t)
  {
    var m := OnWorker(s, g, w, attempts, 0);
    var n := Lease(m, w, HOST, t, 0, 0);
    assert n.rows == Loads(s, g, w, attempts, t).rows;
    assert n.tasks == Loads(s, g, w, attempts, t).tasks;
    assert n.buffered == s.buffered;
  }

  /** Place the job and lease it for task `t`. */
  lemma ReachesLoad(clean: bool, s: State, g: MsgId, w: MsgId, attempts: Byte, t: TaskId)
    requires Waits(s, g, attempts) && g != w && IsFresh(s, w) && t !in s.tasks
    ensures Reaches(clean, s, Loads(s, g, w, attempts, t), 0)
  {
    var m := OnWorker(s, g, w, attempts, 0);
    JobPlaced(s, g, w, attempts);
    OneStep(clean, s, DoPlace(g, HOST, 0, w, 0, 0));
    JobLeased(s, g, w, attempts, t);
    OneStep(clean, m, DoLease(w, HOST, t, 0, 0));
    Chain(clean, s, m, Loads(s, g, w, attempts, t), 0, 0);
  }

  /** The resubmission pending at `t` goes through. */
  function Again(s: State, t: TaskId, f: MsgId, attempts: Byte): State
    requires JOB in s.resubmits
  {
    s.(rows := map[f := Unplaced(JobEnv(attempts), 0)], used := s.used + {f},
       resubmits := s.resubmits[JOB := s.resubmits[JOB] + 1], tasks := s.tasks - {t})
  }

  lemma Resubmitted(clean: bool, s: State, t: TaskId, f: MsgId, attempts: Byte, revert: bool)
    requires s.rows == map[] && t in s.tasks && s.tasks[t] == Resubmit(JobEnv(attempts), revert) && IsFresh(s, f)
    requires JOB in s.resubmits && JOB in s.results && s.results[JOB].status == Pending
    ensures Reaches(clean, s, Again(s, t, f, attempts), 1)
  {
    var c := DoAdvance(t, f, 0);
    assert Advance(s, t, f, 0).rows == Again(s, t, f, attempts).rows;
    assert Next(s, c) == Again(s, t, f, attempts);
    OneStep(clean, s, c);
  }

  /** The load fails with an attempt left. */
  lemma LoadFails(clean: bool, s: State, g: MsgId, w: MsgId, attempts: Byte, t: TaskId)
    requires g != w && t in s.tasks && s.tasks[t] == Loading(w, HOST, JobEnv(attempts).(globalMsgID := g))
    requires RetryLeft(s, JobEnv(attempts)) && (clean ==> w in s.rows)
    requires s.rows == map[] || s.rows == OnWorker(s, g, w, attempts, 1).rows
    ensures Reaches(clean, s, s.(rows := map[], tasks := s.tasks[t := Resubmit(JobEnv(NextAttempt(attempts)), false)]), 0)
  {
    var c := DoLoadFailed(t, "load failed");
    assert Retried(JobEnv(attempts).(globalMsgID := g)) == JobEnv(NextAttempt(attempts));
    assert LoadFailed(s, t, "load failed").rows == map[];
    OneStep(clean, s, c);
  }

  /** The worker disconnects while the job is on it. */
  lemma DrainedToRetry(clean: bool, s: State, g: MsgId, w: MsgId, attempts: Byte, t: TaskId)
    requires g != w && t !in s.tasks && attempts < 2
    requires s.rows == OnWorker(s, g, w, attempts, 1).rows
    requires JOB !in s.inflight && JOB in s.results && s.results[JOB].status == Pending
    ensures Reaches(clean, s, s.(rows := map[], tasks := s.tasks[t := Resubmit(JobEnv(attempts + 1), true)]), 0)
  {
    var c := DoDrain(w, HOST, true, t, -1);
    assert DrainDecision(s, s.rows[w], true, -1) == Retry;
    assert Retried(JobEnv(attempts).(globalMsgID := g)) == JobEnv(attempts + 1);
    assert Drain(s, w, HOST, true, t, -1).rows == map[];
    OneStep(clean, s, c);
  }

  /** After one dispatch whose load failed, resubmitted under `f`. */
  function FailedOnce(s: State, g: MsgId, w: MsgId, f: MsgId, attempts: Byte, t: TaskId): State
    requires JOB in s.resubmits
  {
    s.(rows := map[f := Unplaced(JobEnv(NextAttempt(attempts)), 0)], used := s.used + {w} + {f},
       resubmits := s.resubmits[JOB := s.resubmits[JOB] + 1])
  }

  lemma FailedLoadCycle(clean: bool, s: State, g: MsgId, w: MsgId, f: MsgId, attempts: Byte, t: TaskId)
    requires Waits(s, g, attempts) && g != w && w != f && IsFresh(s, w) && IsFresh(s, f) && t !in s.tasks
    requires RetryLeft(s, JobEnv(attempts))
    ensures Reaches(clean, s, FailedOnce(s, g, w, f, attempts, t), 1)
  {
    var l := Loads(s, g, w, attempts, t);
    ReachesLoad(clean, s, g, w, attempts, t);
    LoadsThenAgain(s, g, w, f, attempts, t);
    FailAndResubmit(clean, l, g, w, f, attempts, t);
    Chain(clean, s, l, FailedOnce(s, g, w, f, attempts, t), 0, 1);
  }

  lemma LoadsThenAgain(s: State, g: MsgId, w: MsgId, f: MsgId, attempts: Byte, t: TaskId)
    requires Waits(s, g, attempts) && t !in s.tasks
    ensures Again(Loads(s, g, w, attempts, t), t, f, NextAttempt(attempts)) == FailedOnce(s, g, w, f, attempts, t)
  {
    assert Loads(s, g, w, attempts, t).tasks - {t} == s.tasks;
  }

  lemma FailAndResubmit(clean: bool, s: State, g: MsgId, w: MsgId, f: MsgId, attempts: Byte, t: TaskId)
    requires g != w && t in s.tasks && s.tasks[t] == Loading(w, HOST, JobEnv(attempts).(globalMsgID := g))
    requires RetryLeft(s, JobEnv(attempts)) && (clean ==> w in s.rows) && IsFresh(s, f)
    requires s.rows == map[] || s.rows == OnWorker(s, g, w, attempts, 1).rows
    requires JOB in s.resubmits && JOB in s.results && s.results[JOB].status == Pending
    ensures Reaches(clean, s, Again(s, t, f, NextAttempt(attempts)), 1)
  {
    var next := NextAttempt(attempts);
    var r := s.(rows := map[], tasks := s.tasks[t := Resubmit(JobEnv(next), false)]);
    LoadFails(clean, s, g, w, attempts, t);
    Resubmitted(clean, r, t, f, next, false);
    assert r.tasks - {t} == s.tasks - {t};
    Chain(clean, s, r, Again(s, t, f, next), 0, 1);
  }

  /** Dispatched for task `t`, then drained to a retry pending at task `u`. */
  function DrainedOff(s: State, g: MsgId, w: MsgId, attempts: Byte, t: TaskId, u: TaskId): State
    requires attempts < 2
  {
    s.(rows := map[], used := s.used + {w},
       tasks := s.tasks[t := Loading(w, HOST, JobEnv(attempts).(globalMsgID := g))][u := Resubmit(JobEnv(attempts + 1), true)])
  }

  lemma DispatchedAndDrained(s: State, g: MsgId, w: MsgId, attempts: Byte, t: TaskId, u: TaskId)
    requires Waits(s, g, attempts) && g != w && IsFresh(s, w) && t !in s.tasks && u !in s.tasks && t != u && attempts < 2
    ensures Reaches(false, s, DrainedOff(s, g, w, attempts, t, u), 0)
  {
    var l := Loads(s, g, w, attempts, t);
    ReachesLoad(false, s, g, w, attempts, t);
    DrainedToRetry(false, l, g, w, attempts, u);
    Chain(false, s, l, DrainedOff(s, g, w, attempts, t, u), 0, 0);
  }

  // --- Climbing ---

  /** The k-th row id of the runs below. */
  function RowId(k: nat): (id: MsgId)
    ensures |id| == k + 1
  {
    seq(k + 1, i => 7)
  }

  /** The job waits with its counter at k, modulo the byte; later row ids are unused, and task 0 is free. */
  ghost predicate At(s: State, loadAttempts: nat, k: nat, spare: map<TaskId, Task>) {
    && Waits(s, RowId(2 * k), k % 256)
    && (forall id :: id in s.used ==> |id| <= 2 * k + 1)
    && s.tasks == spare && 0 !in spare
    && s.loadAttempts == loadAttempts
  }

  /** Place, lease, fail the load, resubmit. */
  lemma OneFailedLoad(clean: bool, s: State, loadAttempts: nat, k: nat, spare: map<TaskId, Task>) returns (n: State)
    requires At(s, loadAttempts, k, spare) && (k % 256) + 1 < loadAttempts
    ensures At(n, loadAttempts, k + 1, spare) && Reaches(clean, s, n, 1)
  {
    var g, w, f := NextIds(s, loadAttempts, k, spare);
    FailedLoadCycle(clean, s, g, w, f, k % 256, 0);
    n := FailedOnce(s, g, w, f, k % 256, 0);
    FailedOnceIsAt(s, loadAttempts, k, spare, g, w, f);
  }

  /** The row the job waits in, and the two ids the next cycle uses. */
  lemma NextIds(s: State, loadAttempts: nat, k: nat, spare: map<TaskId, Task>) returns (g: MsgId, w: MsgId, f: MsgId)
    requires At(s, loadAttempts, k, spare)
    ensures Waits(s, g, k % 256) && g != w && f != w && IsFresh(s, w) && IsFresh(s, f) && 0 !in s.tasks
    ensures f == RowId(2 * (k + 1)) && |w| <= 2 * k + 2
  {
    g, w, f := RowId(2 * k), RowId(2 * k + 1), RowId(2 * k + 2);
  }

  lemma FailedOnceIsAt(s: State, loadAttempts: nat, k: nat, spare: map<TaskId, Task>, g: MsgId, w: MsgId, f: MsgId)
    requires At(s, loadAttempts, k, spare) && Waits(s, g, k % 256) && f == RowId(2 * (k + 1)) && |w| <= 2 * k + 2
    ensures At(FailedOnce(s, g, w, f, k % 256, 0), loadAttempts, k + 1, spare)
  {
    NextNumber(k);
  }

  lemma NextNumber(k: nat)
    ensures NextAttempt(k % 256) == (k + 1) % 256
  {
  }

  /** Carries a run that has got to `s` at step k, with `c` resubmissions, on to step `top`. */
  lemma {:induction false} Climb(
    clean: bool, from: State, s: State, c: nat, loadAttempts: nat, k: nat, top: nat, spare: map<TaskId, Task>)
    returns (n: State)
    requires At(s, loadAttempts, k, spare) && k <= top && HasRoom(loadAttempts, top) && Reaches(clean, from, s, c)
    ensures At(n, loadAttempts, top, spare) && Reaches(clean, from, n, c + (top - k))
    decreases top - k
  {
    if k == top {
      n := s;
    } else {
      RoomToStep(loadAttempts, k, top);
      var mid := OneMoreFailedLoad(clean, from, s, c, loadAttempts, k, spare);
      n := Climb(clean, from, mid, c + 1, loadAttempts, k + 1, top, spare);
    }
  }

  lemma OneMoreFailedLoad(clean: bool, from: State, s: State, c: nat, loadAttempts: nat, k: nat, spare: map<TaskId, Task>)
    returns (n: State)
    requires At(s, loadAttempts, k, spare) && (k % 256) + 1 < loadAttempts && Reaches(clean, from, s, c)
    ensures At(n, loadAttempts, k + 1, spare) && Reaches(clean, from, n, c + 1)
  {
    n := OneFailedLoad(clean, s, loadAttempts, k, spare);
    Chain(clean, from, s, n, c, 1);
  }

  /** Attempts are left at every step below `top`. */
  predicate HasRoom(loadAttempts: nat, top: nat) { loadAttempts > 256 || top < loadAttempts }

  lemma RoomToStep(loadAttempts: nat, k: nat, top: nat)
    requires HasRoom(loadAttempts, top) && k < top
    ensures (k % 256) + 1 < loadAttempts
  {
  }

  lemma SubmittedOnce(clean: bool, loadAttempts: nat) returns (s: State)
    ensures At(s, loadAttempts, 0, map[]) && Reaches(clean, Init(loadAttempts), s, 0)
  {
    var c := DoSubmit(JobEnv(0), RowId(0), 0);
    assert RowId(0) != [];
    s := Next(Init(loadAttempts), c);
    OneStep(clean, Init(loadAttempts), c);
  }

  /** Drained while it loads, then the load fails: the job is at its second attempt, with its retry pending once more at task 1. */
  lemma Doubled(loadAttempts: nat) returns (s: State)
    requires loadAttempts >= 2
    ensures At(s, loadAttempts, 1, map[1 := Resubmit(JobEnv(1), true)]) && Reaches(false, Init(loadAttempts), s, 1)
  {
    var s0 := SubmittedOnce(false, loadAttempts);
    DrainThenFail(s0, RowId(0), RowId(1), RowId(2));
    s := Twice(s0, RowId(0), RowId(1), RowId(2));
    Chain(false, Init(loadAttempts), s0, s, 0, 1);
  }

  function Twice(s: State, g: MsgId, w: MsgId, f: MsgId): State
    requires JOB in s.resubmits
  {
    s.(rows := map[f := Unplaced(JobEnv(1), 0)], used := s.used + {w} + {f},
       resubmits := s.resubmits[JOB := s.resubmits[JOB] + 1], tasks := s.tasks[1 := Resubmit(JobEnv(1), true)])
  }

  lemma DrainThenFail(s: State, g: MsgId, w: MsgId, f: MsgId)
    requires Waits(s, g, 0) && g != w && f != w && IsFresh(s, w) && IsFresh(s, f) && s.tasks == map[] && s.loadAttempts >= 2
    ensures Reaches(false, s, Twice(s, g, w, f), 1)
  {
    var d := DrainedOff(s, g, w, 0, 0, 1);
    DispatchedAndDrained(s, g, w, 0, 0, 1);
    FailAndResubmit(false, d, g, w, f, 0, 0);
    TwiceIsAgain(s, g, w, f);
    Chain(false, s, d, Twice(s, g, w, f), 0, 1);
  }

  lemma TwiceIsAgain(s: State, g: MsgId, w: MsgId, f: MsgId)
    requires JOB in s.resubmits && s.tasks == map[]
    ensures Again(DrainedOff(s, g, w, 0, 0, 1), 0, f, NextAttempt(0)) == Twice(s, g, w, f)
  {
    assert DrainedOff(s, g, w, 0, 0, 1).tasks - {0} == s.tasks[1 := Resubmit(JobEnv(1), true)];
  }

  /** One more dispatch, lost to a disconnect and resubmitted. */
  lemma OneDrain(s: State, loadAttempts: nat, spare: map<TaskId, Task>) returns (n: State)
    requires At(s, loadAttempts, 1, spare) && 2 !in spare
    ensures RowId(5) !in n.used && JOB in n.resubmits && Reaches(false, s, n, 1)
    ensures forall t :: t in spare ==> t in n.tasks && n.tasks[t] == spare[t]
  {
    var g, w, f, x := LaterIds(s, loadAttempts, spare);
    n := DrainedOnce(s, g, w, f);
  }

  /** The row the job waits in, and later ids not used yet. */
  lemma LaterIds(s: State, loadAttempts: nat, spare: map<TaskId, Task>) returns (g: MsgId, w: MsgId, f: MsgId, x: MsgId)
    requires At(s, loadAttempts, 1, spare)
    ensures Waits(s, g, 1) && g != w && w != f && IsFresh(s, w) && IsFresh(s, f)
    ensures x == RowId(5) && x !in s.used && x !in {w, f}
  {
    g, w, f, x := RowId(2), RowId(3), RowId(4), RowId(5);
  }

  lemma DrainedOnce(s: State, g: MsgId, w: MsgId, f: MsgId) returns (n: State)
    requires Waits(s, g, 1) && g != w && w != f && IsFresh(s, w) && IsFresh(s, f) && 0 !in s.tasks && 2 !in s.tasks
    ensures Reaches(false, s, n, 1) && JOB in n.resubmits && n.used == s.used + {w, f}
    ensures forall t :: t in s.tasks ==> t in n.tasks && n.tasks[t] == s.tasks[t]
  {
    DispatchedAndDrained(s, g, w, 1, 0, 2);
    var r := DrainedOff(s, g, w, 1, 0, 2);
    Resubmitted(false, r, 2, f, 2, true);
    n := Again(r, 2, f, 2);
    Chain(false, s, r, n, 0, 1);
  }

  /** Whatever else is on disk, a pending resubmission still goes through. */
  lemma SpareGoesThrough(s: State, t: TaskId, f: MsgId)
    requires t in s.tasks && s.tasks[t].Resubmit? && s.tasks[t].env.requestID == JOB && IsFresh(s, f)
    ensures exists n :: Reaches(false, s, n, 1)
  {
    OneStep(false, s, DoAdvance(t, f, 0));
  }

  // --- The bound, exactly ---

  /** No run resubmits a request as often as the larger budget; with `clean`, no run without a stale retry. */
  ghost predicate RetriesBounded(loadAttempts: nat, clean: bool) {
    forall steps, rid :: ValidRun(Init(loadAttempts), steps) && (clean ==> NoStaleRetry(Init(loadAttempts), steps)) ==>
                           Resubmissions(Init(loadAttempts), steps, rid) <= Max(loadAttempts, 3) - 1
  }

  lemma ReachedIsABreach(clean: bool, loadAttempts: nat, n: nat)
    requires n >= Max(loadAttempts, 3) && exists s :: Reaches(clean, Init(loadAttempts), s, n)
    ensures !RetriesBounded(loadAttempts, clean)
  {
    var s :| Reaches(clean, Init(loadAttempts), s, n);
    var steps: seq<Step> :| && ValidRun(Init(loadAttempts), steps) && (clean ==> NoStaleRetry(Init(loadAttempts), steps))
                            && Exec(Init(loadAttempts), steps) == s && Resubmissions(Init(loadAttempts), steps, JOB) >= n;
  }

  lemma WrappedCounterClimbs(clean: bool, loadAttempts: nat)
    requires loadAttempts > 256
    ensures !RetriesBounded(loadAttempts, clean)
  {
    var n := ClimbedAll(clean, loadAttempts);
    ReachedIsABreach(clean, loadAttempts, loadAttempts);
  }

  lemma ClimbedAll(clean: bool, loadAttempts: nat) returns (n: State)
    requires loadAttempts > 256
    ensures Reaches(clean, Init(loadAttempts), n, loadAttempts)
  {
    var s := SubmittedOnce(clean, loadAttempts);
    n := Climb(clean, Init(loadAttempts), s, 0, loadAttempts, 0, loadAttempts, map[]);
  }

  /** Without stale retries the bound holds exactly when the configured attempts fit the byte that counts them. */
  lemma CleanRetriesBoundedExactlyUpTo256(loadAttempts: nat)
    ensures RetriesBounded(loadAttempts, true) <==> loadAttempts <= 256
  {
    if loadAttempts <= 256 {
      forall steps, rid | ValidRun(Init(loadAttempts), steps) && NoStaleRetry(Init(loadAttempts), steps)
        ensures Resubmissions(Init(loadAttempts), steps, rid) <= Max(loadAttempts, 3) - 1
      {
        RetriesAreBounded(loadAttempts, steps, rid);
      }
    } else {
      WrappedCounterClimbs(true, loadAttempts);
    }
  }

  lemma {:induction false} NoRetriesNoneStale(s: State, steps: seq<Step>)
    requires ValidRun(s, steps) && s.loadAttempts <= 1
    ensures NoStaleRetry(s, steps)
    decreases |steps|
  {
    if steps != [] {
      ConfigStays(s, steps[0]);
      NoRetriesNoneStale(Next(s, steps[0]), steps[1..]);
    }
  }

  lemma ConfigStays(s: State, step: Step)
    requires Enabled(s, step)
    ensures Next(s, step).loadAttempts == s.loadAttempts
  {
    if IsDispatchStep(step) { DispatchConfigStays(s, step); }
  }

  lemma DispatchConfigStays(s: State, step: Step)
    requires Enabled(s, step) && IsDispatchStep(step)
    ensures Next(s, step).loadAttempts == s.loadAttempts
  {
  }

  lemma StaleRetryExceedsTheBound(loadAttempts: nat)
    requires 2 <= loadAttempts <= 256
    ensures !RetriesBounded(loadAttempts, false)
  {
    var s := Doubled(loadAttempts);
    if loadAttempts == 2 {
      DoubledAndDrained(s, loadAttempts);
    } else {
      DoubledAndFailed(s, loadAttempts);
    }
  }

  lemma DoubledAndDrained(s: State, loadAttempts: nat)
    requires loadAttempts == 2 && Reaches(false, Init(loadAttempts), s, 1)
    requires At(s, loadAttempts, 1, map[1 := Resubmit(JobEnv(1), true)])
    ensures !RetriesBounded(loadAttempts, false)
  {
    var n := OneDrain(s, loadAttempts, map[1 := Resubmit(JobEnv(1), true)]);
    Chain(false, Init(loadAttempts), s, n, 1, 1);
    PendingRetryBreaches(loadAttempts, n, 2, RowId(5));
  }

  lemma DoubledAndFailed(s: State, loadAttempts: nat)
    requires 2 < loadAttempts <= 256 && Reaches(false, Init(loadAttempts), s, 1)
    requires At(s, loadAttempts, 1, map[1 := Resubmit(JobEnv(1), true)])
    ensures !RetriesBounded(loadAttempts, false)
  {
    var n := Climb(false, Init(loadAttempts), s, 1, loadAttempts, 1, loadAttempts - 1, map[1 := Resubmit(JobEnv(1), true)]);
    PendingRetryBreaches(loadAttempts, n, loadAttempts - 1, RowId(2 * loadAttempts));
  }

  /** The retry pending at task 1 is one more than the bound. */
  lemma PendingRetryBreaches(loadAttempts: nat, s: State, n: nat, f: MsgId)
    requires Reaches(false, Init(loadAttempts), s, n) && n + 1 >= Max(loadAttempts, 3) && IsFresh(s, f)
    requires 1 in s.tasks && s.tasks[1].Resubmit? && s.tasks[1].env.requestID == JOB
    ensures !RetriesBounded(loadAttempts, false)
  {
    SpareGoesThrough(s, 1, f);
    var m :| Reaches(false, s, m, 1);
    Chain(false, Init(loadAttempts), s, m, n, 1);
    ReachedIsABreach(false, loadAttempts, n + 1);
  }

  /** Over all runs, stale retries included, the bound holds exactly when failed loads are not retried. */
  lemma RetriesBoundedExactlyWithoutLoadRetries(loadAttempts: nat)
    ensures RetriesBounded(loadAttempts, false) <==> loadAttempts <= 1
  {
    if loadAttempts <= 1 {
      forall steps, rid | ValidRun(Init(loadAttempts), steps)
        ensures Resubmissions(Init(loadAttempts), steps, rid) <= Max(loadAttempts, 3) - 1
      {
        NoRetriesNoneStale(Init(loadAttempts), steps);
        RetriesAreBounded(loadAttempts, steps, rid);
      }
    } else if loadAttempts <= 256 {
      StaleRetryExceedsTheBound(loadAttempts);
    } else {
      WrappedCounterClimbs(false, loadAttempts);
    }
  }
}
