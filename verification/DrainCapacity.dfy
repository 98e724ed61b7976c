/**
 How many jobs one worker is given at once: drain passes that read the in-flight
 count and the last heartbeat, interleaved with heartbeats and completions, on a
 worker whose one model runs `pool` jobs in parallel.
 */
module DrainCapacity {
  import opened Wrappers

  function Max(a: int, b: int): int { if a >= b then a else b }

  /** The free slots a heartbeat with `active` running jobs reports. */
  function ReportedCapacity(pool: nat, active: nat): nat { Max(0, pool - active) }

  /** Free slots net of the jobs the heartbeat does not reflect yet; the two heartbeat figures are separate reads. */
  function EffectiveCapacity(capacity: nat, inflight: nat, active: nat): int { capacity - Max(0, inflight - active) }

  function Batch(firstCount: nat, effective: int): int { if firstCount == 0 then Max(effective, 1) else effective }

  // --- The one-drainer slot ---

  class DrainSlots {
    var draining: map<string, bool>

    constructor ()
      ensures draining == map[]
    {
      draining := map[];
    }

    /** Claims the slot, or records that a pass was skipped. */
    method TryMarkDraining(name: string) returns (claimed: bool)
      modifies this
      ensures claimed <==> name !in old(draining)
      ensures draining == old(draining)[name := !claimed]
    {
      if name in draining {
        draining := draining[name := true];
        return false;
      }
      draining := draining[name := false];
      return true;
    }

    /** Frees the slot, reporting whether a pass was skipped meanwhile. */
    method FinishDraining(name: string) returns (rerun: bool)
      modifies this
      ensures rerun <==> name in old(draining) && old(draining)[name]
      ensures draining == old(draining) - {name}
    {
      rerun := name in draining && draining[name];
      draining := draining - {name};
    }

    method IsDraining(name: string) returns (running: bool)
      ensures running <==> name in draining
    {
      return name in draining;
    }
  }

  // --- Drain passes against heartbeats ---

  datatype Pass =
    | Marked
    | Counted(first: nat)
    | CapacityRead(first: nat, seen: nat)                  // capacity taken from a heartbeat of `seen` active jobs
    | Recounted(first: nat, seen: nat, count: nat)
    | Dispatching(left: nat)

  datatype State = State(inflight: nat, beat: nat, passes: map<nat, Pass>, slot: Option<bool>, kicks: nat)

  datatype Step =
    | Begin(id: nat)
    | Skip
    | Count(id: nat)
    | ReadCapacity(id: nat)
    | Recount(id: nat)
    | ReadActive(id: nat)
    | Launch(id: nat)    // a row became a job in flight
    | Bounce(id: nat)    // a row was not started
    | End(id: nat)
    | Heartbeat(active: nat)
    | Complete

  const IDLE := State(0, 0, map[], None, 0)

  /** With `slotted` false a pass starts without claiming the slot. */
  predicate Enabled(slotted: bool, s: State, c: Step) {
    match c
    case Begin(id) => id !in s.passes && (slotted ==> s.slot.None?)
    case Skip => s.slot.Some?
    case Count(id) => id in s.passes && s.passes[id].Marked?
    case ReadCapacity(id) => id in s.passes && s.passes[id].Counted?
    case Recount(id) => id in s.passes && s.passes[id].CapacityRead?
    case ReadActive(id) => id in s.passes && s.passes[id].Recounted?
    case Launch(id) => id in s.passes && s.passes[id].Dispatching? && s.passes[id].left > 0
    case Bounce(id) => id in s.passes && s.passes[id].Dispatching? && s.passes[id].left > 0
    case End(id) => id in s.passes && s.passes[id].Dispatching?
    case Heartbeat(_) => true
    case Complete => s.inflight > 0
  }

  function To(s: State, id: nat, p: Pass): State { s.(passes := s.passes[id := p]) }

  function Next(pool: nat, s: State, c: Step): State
    requires Enabled(false, s, c)
  {
    match c
    case Begin(id) => To(s, id, Marked).(slot := Some(false))
    case Skip => s.(slot := Some(true))
    case Count(id) => To(s, id, Counted(s.inflight))
    case ReadCapacity(id) => To(s, id, CapacityRead(s.passes[id].first, s.beat))
    case Recount(id) => To(s, id, Recounted(s.passes[id].first, s.passes[id].seen, s.inflight))
    case ReadActive(id) =>
      var p := s.passes[id];
      To(s, id, Dispatching(Max(0, Batch(p.first, EffectiveCapacity(ReportedCapacity(pool, p.seen), p.count, s.beat)))))
    case Launch(id) => To(s, id, Dispatching(s.passes[id].left - 1)).(inflight := s.inflight + 1)
    case Bounce(id) => To(s, id, Dispatching(s.passes[id].left - 1))
    case End(id) =>
      s.(passes := s.passes - {id}, slot := None,
         kicks := if s.slot == Some(true) then s.kicks + 1 else s.kicks)
    case Heartbeat(active) => s.(beat := active)
    case Complete => s.(inflight := s.inflight - 1)
  }

  predicate ValidRun(pool: nat, slotted: bool, s: State, steps: seq<Step>)
    decreases |steps|
  {
    steps == [] || (Enabled(slotted, s, steps[0]) && ValidRun(pool, slotted, Next(pool, s, steps[0]), steps[1..]))
  }

  function Exec(pool: nat, slotted: bool, s: State, steps: seq<Step>): State
    requires ValidRun(pool, slotted, s, steps)
    decreases |steps|
  {
    if steps == [] then s else Exec(pool, slotted, Next(pool, s, steps[0]), steps[1..])
  }

  /** Every pass takes both figures from heartbeats with equal active counts, or from one with `seen` and then one with `now`. */
  predicate ReadsOnly(pool: nat, slotted: bool, s: State, steps: seq<Step>, seen: nat, now: nat)
    requires ValidRun(pool, slotted, s, steps)
    decreases |steps|
  {
    steps == [] ||
    (&& (steps[0].ReadActive? ==>
           s.passes[steps[0].id].seen == s.beat || (s.passes[steps[0].id].seen == seen && s.beat == now))
     && ReadsOnly(pool, slotted, Next(pool, s, steps[0]), steps[1..], seen, now))
  }

  /** Some run of slot-claiming passes that read only so puts more jobs in flight than the pool holds. */
  ghost predicate CanOverfill(pool: nat, seen: nat, now: nat) {
    exists s :: Reaches(pool, true, IDLE, s, seen, now) && s.inflight > pool
  }

  // --- Safety ---

  predicate PassOk(pool: nat, s: State, p: Pass) {
    match p
    case Marked => true
    case Counted(first) => s.inflight <= first
    case CapacityRead(first, _) => s.inflight <= first
    case Recounted(first, _, count) => s.inflight <= count <= first && count <= pool
    case Dispatching(left) => s.inflight + left <= pool
  }

  predicate Inv(pool: nat, s: State) {
    && s.inflight <= pool
    && (forall id :: id in s.passes ==> PassOk(pool, s, s.passes[id]))
    && (forall id, other :: id in s.passes && other in s.passes ==> id == other)
    && (s.passes != map[] ==> s.slot.Some?)
  }

  predicate Harmless(pool: nat, seen: nat, now: nat) { now <= seen || pool <= seen }

  /** A batch sized from two heartbeats fits the pool for every in-flight count, exactly when the pair is harmless. */
  lemma BatchFitsExactly(pool: nat, seen: nat, now: nat)
    requires pool >= 1
    ensures (forall n: nat :: n <= pool ==> n + EffectiveCapacity(ReportedCapacity(pool, seen), n, now) <= pool)
            <==> Harmless(pool, seen, now)
  {
    if !Harmless(pool, seen, now) {
      var n := seen + 1;
      assert n <= pool && n + EffectiveCapacity(ReportedCapacity(pool, seen), n, now) > pool;
    }
  }

  /** With nothing in flight a pass takes at least one row, and it fills the pool exactly when the heartbeat it read reports no more running than there are. */
  lemma BatchFillsExactly(pool: nat, inflight: nat, active: nat)
    requires inflight <= pool && active <= pool
    ensures var batch := Max(0, Batch(inflight, EffectiveCapacity(ReportedCapacity(pool, active), inflight, active)));
            && (inflight == 0 ==> batch >= 1)
            && (pool >= 1 ==> (inflight + batch == pool <==> active <= inflight || (inflight == 0 && pool == 1)))
            && (active > inflight && inflight > 0 ==> inflight + batch == pool - (active - inflight))
  {
  }

  lemma StepKeepsInv(pool: nat, s: State, c: Step)
    requires pool >= 1 && Inv(pool, s) && Enabled(true, s, c)
    requires c.ReadActive? ==> Harmless(pool, s.passes[c.id].seen, s.beat)
    ensures Inv(pool, Next(pool, s, c))
  {
    if c.ReadActive? {
      BatchFitsExactly(pool, s.passes[c.id].seen, s.beat);
      assert PassOk(pool, s, s.passes[c.id]);
    }
  }

  lemma {:induction false} RunKeepsInv(pool: nat, s: State, steps: seq<Step>, seen: nat, now: nat)
    requires pool >= 1 && Inv(pool, s) && ValidRun(pool, true, s, steps)
    requires Harmless(pool, seen, now) && ReadsOnly(pool, true, s, steps, seen, now)
    ensures Inv(pool, Exec(pool, true, s, steps))
    decreases |steps|
  {
    if steps != [] {
      StepKeepsInv(pool, s, steps[0]);
      RunKeepsInv(pool, Next(pool, s, steps[0]), steps[1..], seen, now);
    }
  }

  /** However stale the heartbeats, passes that read one heartbeat each never overfill the pool. */
  lemma NeverOverPool(pool: nat, steps: seq<Step>)
    requires pool >= 1 && ValidRun(pool, true, IDLE, steps) && ReadsOnly(pool, true, IDLE, steps, 0, 0)
    ensures Exec(pool, true, IDLE, steps).inflight <= pool
  {
    RunKeepsInv(pool, IDLE, steps, 0, 0);
  }

  // --- Skipped passes ---

  /** The ended passes in whose slot some pass was skipped; `open` says whether one was in the slot now claimed. */
  function SkippedSlots(steps: seq<Step>, open: bool): nat {
    if steps == [] then 0
    else match steps[0]
      case Begin(_) => SkippedSlots(steps[1..], false)
      case Skip => SkippedSlots(steps[1..], true)
      case End(_) => (if open then 1 else 0) + SkippedSlots(steps[1..], false)
      case _ => SkippedSlots(steps[1..], open)
  }

  lemma {:induction false} KicksFollowTheSlots(pool: nat, s: State, steps: seq<Step>)
    requires ValidRun(pool, true, s, steps)
    ensures Exec(pool, true, s, steps).kicks == s.kicks + SkippedSlots(steps, s.slot == Some(true))
    decreases |steps|
  {
    if steps != [] { KicksFollowTheSlots(pool, Next(pool, s, steps[0]), steps[1..]); }
  }

  /** Over every run the dispatcher is kicked once for each ended pass in whose slot another was skipped. */
  lemma KicksCountTheSkippedSlots(pool: nat, steps: seq<Step>)
    requires ValidRun(pool, true, IDLE, steps)
    ensures Exec(pool, true, IDLE, steps).kicks == SkippedSlots(steps, false)
  {
    KicksFollowTheSlots(pool, IDLE, steps);
  }

  /** A skip is never lost: after it, on every run, either the slot it found taken is still taken, or there has been a kick. */
  lemma NoSkipIsLost(pool: nat, s: State, steps: seq<Step>)
    requires Enabled(true, s, Skip) && ValidRun(pool, true, Next(pool, s, Skip), steps)
    ensures var n := Exec(pool, true, Next(pool, s, Skip), steps); n.kicks > s.kicks || n.slot == Some(true)
  {
    SkipWaitsForItsKick(pool, Next(pool, s, Skip), steps);
  }

  lemma {:induction false} SkipWaitsForItsKick(pool: nat, s: State, steps: seq<Step>)
    requires s.slot == Some(true) && ValidRun(pool, true, s, steps)
    ensures var n := Exec(pool, true, s, steps); n.kicks > s.kicks || n.slot == Some(true)
    decreases |steps|
  {
    if steps != [] {
      var n := Next(pool, s, steps[0]);
      if steps[0].End? {
        KicksFollowTheSlots(pool, n, steps[1..]);
      } else {
        SkipWaitsForItsKick(pool, n, steps[1..]);
      }
    }
  }

  // --- What the bound needs ---

  lemma {:induction false} Join(pool: nat, slotted: bool, s: State, a: seq<Step>, b: seq<Step>, seen: nat, now: nat)
    requires ValidRun(pool, slotted, s, a) && ReadsOnly(pool, slotted, s, a, seen, now)
    requires var m := Exec(pool, slotted, s, a); ValidRun(pool, slotted, m, b) && ReadsOnly(pool, slotted, m, b, seen, now)
    ensures ValidRun(pool, slotted, s, a + b) && ReadsOnly(pool, slotted, s, a + b, seen, now)
    ensures Exec(pool, slotted, s, a + b) == Exec(pool, slotted, Exec(pool, slotted, s, a), b)
    decreases |a|
  {
    if a == [] {
      assert a + b == b;
    } else {
      Join(pool, slotted, Next(pool, s, a[0]), a[1..], b, seen, now);
      assert (a + b)[0] == a[0] && (a + b)[1..] == a[1..] + b;
    }
  }

  /** Some run that reads only so leads from `s` to `t`. */
  ghost predicate Reaches(pool: nat, slotted: bool, s: State, t: State, seen: nat, now: nat) {
    exists steps: seq<Step> ::
      ValidRun(pool, slotted, s, steps) && ReadsOnly(pool, slotted, s, steps, seen, now)
      && Exec(pool, slotted, s, steps) == t
  }

  lemma Chain(pool: nat, slotted: bool, s: State, t: State, u: State, seen: nat, now: nat)
    requires Reaches(pool, slotted, s, t, seen, now) && Reaches(pool, slotted, t, u, seen, now)
    ensures Reaches(pool, slotted, s, u, seen, now)
  {
    var a :| ValidRun(pool, slotted, s, a) && ReadsOnly(pool, slotted, s, a, seen, now) && Exec(pool, slotted, s, a) == t;
    var b :| ValidRun(pool, slotted, t, b) && ReadsOnly(pool, slotted, t, b, seen, now) && Exec(pool, slotted, t, b) == u;
    Join(pool, slotted, s, a, b, seen, now);
  }

  lemma OneStep(pool: nat, slotted: bool, s: State, c: Step, seen: nat, now: nat)
    requires Enabled(slotted, s, c)
    requires c.ReadActive? ==> s.passes[c.id].seen == s.beat || (s.passes[c.id].seen == seen && s.beat == now)
    ensures Reaches(pool, slotted, s, Next(pool, s, c), seen, now)
  {
    var n := Next(pool, s, c);
    assert ValidRun(pool, slotted, n, []) && ReadsOnly(pool, slotted, n, [], seen, now);
    assert [c][1..] == [];
    assert ValidRun(pool, slotted, s, [c]) && ReadsOnly(pool, slotted, s, [c], seen, now);
    assert Exec(pool, slotted, s, [c]) == Exec(pool, slotted, n, []);
  }

  /** One more step on from where a run has got to. */
  lemma StepOn(pool: nat, slotted: bool, s: State, t: State, c: Step, seen: nat, now: nat)
    requires Reaches(pool, slotted, s, t, seen, now) && Enabled(slotted, t, c)
    requires c.ReadActive? ==> t.passes[c.id].seen == t.beat || (t.passes[c.id].seen == seen && t.beat == now)
    ensures Reaches(pool, slotted, s, Next(pool, t, c), seen, now)
  {
    OneStep(pool, slotted, t, c, seen, now);
    Chain(pool, slotted, s, t, Next(pool, t, c), seen, now);
  }

  function Launched(s: State, id: nat, n: nat): State
    requires id in s.passes && s.passes[id].Dispatching? && n <= s.passes[id].left
  {
    To(s, id, Dispatching(s.passes[id].left - n)).(inflight := s.inflight + n)
  }

  lemma {:induction false} LaunchMany(pool: nat, slotted: bool, s: State, id: nat, n: nat, seen: nat, now: nat)
    requires id in s.passes && s.passes[id].Dispatching? && n <= s.passes[id].left
    ensures Reaches(pool, slotted, s, Launched(s, id, n), seen, now)
    decreases n
  {
    if n == 0 {
      assert ValidRun(pool, slotted, s, []) && ReadsOnly(pool, slotted, s, [], seen, now);
      assert s.passes[id := s.passes[id]] == s.passes;
    } else {
      LaunchMany(pool, slotted, s, id, n - 1, seen, now);
      var m := Launched(s, id, n - 1);
      OneStep(pool, slotted, m, Launch(id), seen, now);
      Chain(pool, slotted, s, m, Next(pool, m, Launch(id)), seen, now);
      assert m.passes[id := Dispatching(s.passes[id].left - n)] == s.passes[id := Dispatching(s.passes[id].left - n)];
    }
  }

  /** The state in which a pass that saw nothing start or end is about to launch its batch. */
  function Sized(pool: nat, s: State, id: nat, seen: nat, now: nat): State {
    var left := Max(0, Batch(s.inflight, EffectiveCapacity(ReportedCapacity(pool, seen), s.inflight, now)));
    State(s.inflight, now, s.passes[id := Dispatching(left)], Some(false), s.kicks)
  }

  /** The state of a pass that has read everything but the active count. */
  function Halfway(s: State, id: nat, seen: nat): State {
    State(s.inflight, seen, s.passes[id := Recounted(s.inflight, seen, s.inflight)], Some(false), s.kicks)
  }

  lemma FirstHalf(pool: nat, slotted: bool, s: State, id: nat, before: nat, seen: nat, now: nat)
    requires id !in s.passes && (slotted ==> s.slot.None?)
    ensures Reaches(pool, slotted, s, Halfway(s, id, before), seen, now)
  {
    var s1 := Next(pool, s, Heartbeat(before));
    OneStep(pool, slotted, s, Heartbeat(before), seen, now);
    var s2 := Next(pool, s1, Begin(id));
    StepOn(pool, slotted, s, s1, Begin(id), seen, now);
    var s3 := Next(pool, s2, Count(id));
    StepOn(pool, slotted, s, s2, Count(id), seen, now);
    var s4 := Next(pool, s3, ReadCapacity(id));
    StepOn(pool, slotted, s, s3, ReadCapacity(id), seen, now);
    var s5 := Next(pool, s4, Recount(id));
    StepOn(pool, slotted, s, s4, Recount(id), seen, now);
    assert s5.passes == s.passes[id := s5.passes[id]];
  }

  /** One pass up to its batch, with a heartbeat before it and one between its two reads of the heartbeat. */
  lemma OnePass(pool: nat, slotted: bool, s: State, id: nat, before: nat, after: nat, seen: nat, now: nat)
    requires id !in s.passes && (slotted ==> s.slot.None?)
    requires before == after || (before == seen && after == now)
    ensures Reaches(pool, slotted, s, Sized(pool, s, id, before, after), seen, now)
  {
    FirstHalf(pool, slotted, s, id, before, seen, now);
    var s5 := Halfway(s, id, before);
    var s6 := Next(pool, s5, Heartbeat(after));
    StepOn(pool, slotted, s, s5, Heartbeat(after), seen, now);
    var s7 := Next(pool, s6, ReadActive(id));
    StepOn(pool, slotted, s, s6, ReadActive(id), seen, now);
    assert s7.passes == s.passes[id := s7.passes[id]];
  }

  /**
   The bound survives a heartbeat landing between the two reads exactly when the
   second reports no more active jobs than the first, or the first reported a full pool.
   */
  lemma TornReadOverfillsExactly(pool: nat, seen: nat, now: nat)
    requires pool >= 1
    ensures CanOverfill(pool, seen, now) <==> !Harmless(pool, seen, now)
  {
    if Harmless(pool, seen, now) {
      forall s | Reaches(pool, true, IDLE, s, seen, now)
        ensures s.inflight <= pool
      {
        var steps :| ValidRun(pool, true, IDLE, steps) && ReadsOnly(pool, true, IDLE, steps, seen, now)
                     && Exec(pool, true, IDLE, steps) == s;
        RunKeepsInv(pool, IDLE, steps, seen, now);
      }
    } else {
      TornRun(pool, seen, now);
    }
  }

  /** A full first batch, then one job more than the first heartbeat knew of. */
  lemma TornRun(pool: nat, seen: nat, now: nat)
    requires pool >= 1 && !Harmless(pool, seen, now)
    ensures CanOverfill(pool, seen, now)
  {
    var s1 := Sized(pool, IDLE, 0, 0, 0);
    OnePass(pool, true, IDLE, 0, 0, 0, seen, now);
    var s2 := Launched(s1, 0, seen + 1);
    LaunchMany(pool, true, s1, 0, seen + 1, seen, now);
    Chain(pool, true, IDLE, s1, s2, seen, now);
    var s3 := Next(pool, s2, End(0));
    StepOn(pool, true, IDLE, s2, End(0), seen, now);
    var s4 := Sized(pool, s3, 0, seen, now);
    OnePass(pool, true, s3, 0, seen, now, seen, now);
    Chain(pool, true, IDLE, s3, s4, seen, now);
    var s5 := Launched(s4, 0, pool - seen);
    LaunchMany(pool, true, s4, 0, pool - seen, seen, now);
    Chain(pool, true, IDLE, s4, s5, seen, now);
    assert s5.inflight == pool + 1;
  }

  /** Without the slot, two passes over one idle worker overfill a pool of any size. */
  lemma SlotIsNeeded(pool: nat)
    requires pool >= 1
    ensures exists s :: Reaches(pool, false, IDLE, s, 0, 0) && s.inflight == 2 * pool
  {
    var s1 := Sized(pool, IDLE, 0, 0, 0);
    OnePass(pool, false, IDLE, 0, 0, 0, 0, 0);
    var s2 := Sized(pool, s1, 1, 0, 0);
    OnePass(pool, false, s1, 1, 0, 0, 0, 0);
    Chain(pool, false, IDLE, s1, s2, 0, 0);
    var s3 := Launched(s2, 0, pool);
    LaunchMany(pool, false, s2, 0, pool, 0, 0);
    Chain(pool, false, IDLE, s2, s3, 0, 0);
    var s4 := Launched(s3, 1, pool);
    LaunchMany(pool, false, s3, 1, pool, 0, 0);
    Chain(pool, false, IDLE, s3, s4, 0, 0);
    assert s4.inflight == 2 * pool;
  }
}
