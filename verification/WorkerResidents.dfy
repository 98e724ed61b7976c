/**
 The scheduler's side of one worker, and a dispatch there that nothing interrupts: what
 it does to the worker and to the list, and that it is a run of Residency's steps.
 */
module WorkerResidents {
  import opened Wrappers
  import opened DeviceGate
  import opened Residency

  /** Unloading the named models in turn up to the first that is refused: what is held then, and whether all went. */
  function Evictions(held: map<Name, seq<Name>>, named: seq<Resident>, refused: set<Name>): (map<Name, seq<Name>>, bool) {
    if named == [] then (held, true)
    else if named[0].model in refused then (held, false)
    else Evictions(held - {named[0].model}, named[1..], refused)
  }

  /** All of them go exactly when none is refused, and then just the named models are gone; two of one name are no matter. */
  lemma {:induction false} AllGoExactly(held: map<Name, seq<Name>>, named: seq<Resident>, refused: set<Name>)
    ensures var (left, all) := Evictions(held, named, refused);
            && (all <==> forall lm :: lm in named ==> lm.model !in refused)
            && (all ==> forall m :: m in left <==> m in held && !Names(named, m))
            && (forall m :: m in left ==> m in held && left[m] == held[m])
            && (forall m :: m in held && m !in left ==> Names(named, m) && m !in refused)
  {
    if named != [] {
      assert named == [named[0]] + named[1..];
      assert forall m :: Names(named, m) <==> m == named[0].model || Names(named[1..], m);
      if named[0].model !in refused {
        AllGoExactly(held - {named[0].model}, named[1..], refused);
      }
    }
  }

  datatype Gate =
    | Bounced                      // no measurement, or a named model is busy or would not unload; the row is put back
    | LoadFailed
    | Out(loaded: bool)            // the job goes to the worker

  class Worker {
    var held: map<Name, seq<Name>>   // on the worker
    var listed: seq<Resident>        // in the scheduler

    constructor ()
      ensures held == map[] && listed == []
    {
      held, listed := map[], [];
    }

    /** Replaces the list and nothing else. */
    method ApplyHeartbeat(list: seq<Resident>)
      modifies this`listed
      ensures listed == list
    {
      listed := list;
    }

    method MarkLoaded(model: Name)
      modifies this`listed
      ensures listed == MarkedIn(old(listed), model)
    {
      for i := 0 to |listed|
        invariant listed == old(listed)
        invariant forall j :: 0 <= j < i ==> listed[j].model != model
      {
        if listed[i].model == model {
          return;
        }
      }
      listed := listed + [Resident(model, [], 0)];
    }

    /** Asks the worker to drop one model it is listed with; the list stays. */
    method EvictModel(model: Name, refused: set<Name>) returns (evicted: nat)
      modifies this`held
      ensures evicted == if Names(listed, model) && model !in refused then 1 else 0
      ensures held == if evicted == 1 then old(held) - {model} else old(held)
    {
      evicted := 0;
      for i := 0 to |listed|
        invariant evicted == 0 && held == old(held)
        invariant forall j :: 0 <= j < i ==> listed[j].model != model
      {
        if listed[i].model == model {
          if model !in refused {
            held := held - {model};
            evicted := 1;
          }
          break;
        }
      }
    }

    /** Evicts the named models in turn, stopping at the first that does not go. */
    method EvictAll(named: seq<Resident>, refused: set<Name>) returns (all: bool)
      requires forall lm :: lm in named ==> Names(listed, lm.model)
      modifies this`held
      ensures (held, all) == Evictions(old(held), named, refused)
    {
      for i := 0 to |named|
        invariant Evictions(held, named[i..], refused) == Evictions(old(held), named, refused)
      {
        assert named[i..][0] == named[i] && named[i..][1..] == named[i + 1..];
        var n := EvictModel(named[i].model, refused);
        if n == 0 {
          return false;
        }
      }
      return true;
    }

    /** From the gate's look at the list to the job going out. */
    method Dispatch(target: Name, predicted: seq<Name>, measured: bool, inflight: set<Name>, refused: set<Name>, placed: Option<seq<Name>>)
      returns (gate: Gate)
      modifies this
      ensures (gate, held, listed) == Dispatched(old(held), old(listed), target, predicted, measured, inflight, refused, placed)
    {
      var named := ResidentsBlockingLoad(listed, target, predicted);
      BlockersAreExactly(listed, target, predicted);
      var needsLoad := target != "" && (!Has(listed, target) || Names(named, target));
      if !measured {
        return Bounced;
      }
      var busy := IsAnyBusy(named, inflight);
      if busy {
        return Bounced;
      }
      var all := EvictAll(named, refused);
      if !all {
        return Bounced;
      }
      if needsLoad {
        if placed.None? {
          return LoadFailed;
        }
        held := held[target := placed.value];
        MarkLoaded(target);
      }
      return Out(needsLoad);
    }
  }

  method IsAnyBusy(named: seq<Resident>, inflight: set<Name>) returns (busy: bool)
    ensures busy == AnyBusy(named, inflight)
  {
    for i := 0 to |named|
      invariant forall j :: 0 <= j < i ==> !Busy(named[j], inflight)
    {
      if Busy(named[i], inflight) {
        return true;
      }
    }
    return false;
  }

  /** The outcome, what is held and what is listed after a dispatch with nothing in between. */
  function Dispatched(held: map<Name, seq<Name>>, listed: seq<Resident>, target: Name, predicted: seq<Name>, measured: bool,
                      inflight: set<Name>, refused: set<Name>, placed: Option<seq<Name>>): (Gate, map<Name, seq<Name>>, seq<Resident>)
  {
    var named := Blockers(listed, target, predicted);
    var (left, all) := Evictions(held, named, refused);
    if !measured || AnyBusy(named, inflight) then (Bounced, held, listed)
    else if !all then (Bounced, left, listed)
    else if !NeedsLoad(listed, named, target) then (Out(false), left, listed)
    else if placed.None? then (LoadFailed, left, listed)
    else (Out(true), left[target := placed.value], MarkedIn(listed, target))
  }

  // --- Such a dispatch is a run ---

  ghost predicate ClearsTo(s: State, t: State, u: State, left: map<Name, seq<Name>>, all: bool)
    requires t.dispatch.Some?
  {
    && Leads(s, u) && u.held == left && u.seen == t.seen
    && if !all then u.dispatch.None?
       else u.dispatch.Some? && u.dispatch.value.stage == t.dispatch.value.stage && u.dispatch.value.target == t.dispatch.value.target
            && Gone(u.dispatch.value)
  }

  ghost predicate Clears(s: State, t: State, out: (map<Name, seq<Name>>, bool))
    requires t.dispatch.Some?
  {
    exists u :: ClearsTo(s, t, u, out.0, out.1)
  }

  /** From a state in which the named models from `d.evicted` on are to be evicted. */
  lemma {:induction false} EvictionsAreARun(s: State, t: State, refused: set<Name>)
    requires Leads(s, t) && t.dispatch.Some? && t.dispatch.value.stage.Clearing?
    requires t.dispatch.value.evicted <= |t.dispatch.value.named|
    requires forall lm :: lm in t.dispatch.value.named ==> Names(t.seen, lm.model)
    ensures var d := t.dispatch.value;
            Clears(s, t, Evictions(t.held, d.named[d.evicted..], refused))
    decreases |t.dispatch.value.named| - t.dispatch.value.evicted
  {
    var d := t.dispatch.value;
    var rest := d.named[d.evicted..];
    if rest != [] {
      assert rest[0] == d.named[d.evicted] && rest[1..] == d.named[d.evicted + 1..];
      var step := EvictNext(rest[0].model !in refused);
      StepOn(s, t, step);
      if rest[0].model !in refused {
        EvictionsAreARun(s, Next(t, step), refused);
        var out := Evictions(t.held, rest, refused);
        assert out == Evictions(Next(t, step).held, rest[1..], refused);
        var u :| ClearsTo(s, Next(t, step), u, out.0, out.1);
        assert ClearsTo(s, t, u, out.0, out.1);
      } else {
        assert Evictions(t.held, rest, refused) == (t.held, false);
        assert ClearsTo(s, t, Next(t, step), t.held, false);
      }
    } else {
      assert ClearsTo(s, t, t, t.held, true);
    }
  }

  /** Some run leads to this outcome. */
  ghost predicate ComesTo(s: State, gate: Gate, held: map<Name, seq<Name>>, listed: seq<Resident>) {
    exists u :: Leads(s, u) && u.held == held && u.seen == listed && (if gate.Out? then AtTheEnd(u) else u.dispatch.None?)
  }

  lemma ClearedComesTo(s: State, u: State, placed: Option<seq<Name>>)
    requires Leads(s, u) && u.dispatch.Some? && u.dispatch.value.stage.Clearing? && Gone(u.dispatch.value)
    ensures var target := u.dispatch.value.target;
            if u.dispatch.value.stage == Clearing(false) then ComesTo(s, Out(false), u.held, u.seen)
            else if placed.None? then ComesTo(s, LoadFailed, u.held, u.seen)
            else ComesTo(s, Out(true), u.held[target := placed.value], MarkedIn(u.seen, target))
  {
    if u.dispatch.value.stage == Clearing(true) {
      StepOn(s, u, Load(placed));
      if placed.Some? {
        StepOn(s, Next(u, Load(placed)), Mark);
      }
    }
  }

  /** The uninterrupted dispatch does to the worker and to the list what some run does, and gets out exactly where that run does. */
  lemma DispatchIsARun(s: State, target: Name, predicted: seq<Name>, measured: bool, inflight: set<Name>, refused: set<Name>,
                       placed: Option<seq<Name>>)
    requires s.dispatch.None?
    ensures var (gate, held, listed) := Dispatched(s.held, s.seen, target, predicted, measured, inflight, refused, placed);
            ComesTo(s, gate, held, listed)
  {
    Stays(s);
    StepOn(s, s, Look(target, predicted));
    var l := Next(s, Look(target, predicted));
    StepOn(s, l, Decide(measured, inflight));
    var t := Next(l, Decide(measured, inflight));
    var named := l.dispatch.value.named;
    if !measured || AnyBusy(named, inflight) {
      assert ComesTo(s, Bounced, t.held, t.seen);
    } else {
      BlockersAreExactly(s.seen, target, predicted);
      assert named[0..] == named;
      EvictionsAreARun(s, t, refused);
      var out := Evictions(s.held, named, refused);
      var u :| ClearsTo(s, t, u, out.0, out.1);
      if out.1 {
        ClearedComesTo(s, u, placed);
      } else {
        assert ComesTo(s, Bounced, u.held, u.seen);
      }
    }
  }
}
