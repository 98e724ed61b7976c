/** Three runs of Residency's steps in which list and worker part ways, all on one worker with the device "g" in use. */
module ResidencyExamples {
  import opened Wrappers
  import opened DeviceGate
  import opened Residency

  const ON: seq<Name> := ["g"]

  function Listed(model: Name, devices: seq<Name>): Resident { Resident(model, devices, 0) }

  lemma Nothing(target: Name)
    ensures Blockers([], target, ON) == []
  {
  }

  lemma OneListed(r: Resident, target: Name)
    ensures Blockers([r], target, ON) == if Blocks(r, target, ON) then [r] else []
  {
    OneMoreResident([], r, target, ON);
    assert [] + [r] == [r];
  }

  lemma TwoListed(r: Resident, q: Resident, target: Name)
    ensures Blockers([r, q], target, ON) == (if Blocks(r, target, ON) then [r] else []) + if Blocks(q, target, ON) then [q] else []
  {
    OneListed(r, target);
    OneMoreResident([r], q, target, ON);
    assert [r] + [q] == [r, q];
  }

  /** The worker holds `model` on `devices`, freshly reported. */
  function Reported(model: Name, devices: seq<Name>): State {
    State(map[model := devices], [Listed(model, devices)], [], [Listed(model, devices)], None)
  }

  lemma ReportedIsReached(model: Name, devices: seq<Name>)
    ensures Leads(START, Reported(model, devices))
  {
    Stays(START);
    StepOn(START, START, Appear(model, devices));
    var s := Next(START, Appear(model, devices));
    assert s.held == map[model := devices];
    assert Listed(model, devices) in [Listed(model, devices)];
    StepOn(START, s, Heartbeat([Listed(model, devices)]));
  }

  lemma Looks(s: State, target: Name, named: seq<Resident>)
    requires Leads(START, s) && s.dispatch.None? && Blockers(s.seen, target, ON) == named
    ensures Leads(START, s.(dispatch := Some(Dispatch(target, ON, s.report, s.log, [], named, 0, Looked, false))))
  {
    StepOn(START, s, Look(target, ON));
  }

  lemma Decides(s: State, d: Dispatch, needs: bool)
    requires Leads(START, s) && s.dispatch == Some(d) && d.stage.Looked? && NeedsLoad(s.seen, d.named, d.target) == needs
    requires forall lm :: lm in d.named ==> lm.active == 0
    ensures Leads(START, s.(dispatch := Some(d.(stage := Clearing(needs)))))
  {
    StepOn(START, s, Decide(true, {}));
  }

  lemma Evicts(s: State, d: Dispatch, m: Name)
    requires Leads(START, s) && s.dispatch == Some(d) && d.stage.Clearing? && d.evicted < |d.named| && d.named[d.evicted].model == m
    requires Names(s.seen, m)
    ensures Leads(START, State(s.held - {m}, s.report, s.log + [Lost(m)], s.seen,
                               Some(d.(evicted := d.evicted + 1, after := d.after + [Lost(m)]))))
  {
    StepOn(START, s, EvictNext(true));
  }

  lemma Loads(s: State, d: Dispatch)
    requires Leads(START, s) && s.dispatch == Some(d) && d.stage == Clearing(true) && Gone(d)
    ensures Leads(START, State(s.held[d.target := ON], s.report, s.log + [Placed(d.target, ON)], s.seen,
                               Some(d.(stage := Loaded, after := d.after + [Placed(d.target, ON)]))))
  {
    StepOn(START, s, Load(Some(ON)));
  }

  /** The load is entered and the job goes out. */
  lemma Finishes(s: State, d: Dispatch)
    requires Leads(START, s) && s.dispatch == Some(d) && d.stage.Loaded?
    ensures Leads(START, State(s.held, s.report, s.log + [Marked(d.target)], MarkedIn(s.seen, d.target), None))
  {
    StepOn(START, s, Mark);
    StepOn(START, Next(s, Mark), Through);
  }

  /** With `model` reported and in the way, `target` is loaded in its stead and let through. */
  lemma Replaced(model: Name, devices: seq<Name>, target: Name)
    requires target != "" && Blocks(Listed(model, devices), target, ON)
    ensures Leads(START, State(map[target := ON], [Listed(model, devices)], [Lost(model), Placed(target, ON), Marked(target)],
                               MarkedIn([Listed(model, devices)], target), None))
  {
    var r := Listed(model, devices);
    ReportedIsReached(model, devices);
    OneListed(r, target);
    assert r in [r];
    Looks(Reported(model, devices), target, [r]);
    var d := Dispatch(target, ON, [r], [], [], [r], 0, Looked, false);
    Decides(Reported(model, devices).(dispatch := Some(d)), d, true);
    var cleared := d.(stage := Clearing(true));
    Evicts(Reported(model, devices).(dispatch := Some(cleared)), cleared, model);
    assert map[model := devices] - {model} == map[];
    var evicted := cleared.(evicted := 1, after := [Lost(model)]);
    assert [] + [Lost(model)] == [Lost(model)];
    Loads(State(map[], [r], [Lost(model)], [r], Some(evicted)), evicted);
    assert [Lost(model)] + [Placed(target, ON)] == [Lost(model), Placed(target, ON)];
    var loaded := evicted.(stage := Loaded, after := [Lost(model), Placed(target, ON)]);
    Finishes(State(map[target := ON], [r], [Lost(model), Placed(target, ON)], [r], Some(loaded)), loaded);
    assert [Lost(model), Placed(target, ON)] + [Marked(target)] == [Lost(model), Placed(target, ON), Marked(target)];
  }

  const B := Listed("B", ON)
  const T := Listed("T", [])

  lemma GateForB()
    ensures MarkedIn([B], "T") == [B, T]
    ensures Blockers([B, T], "B", ON) == [T]
    ensures !NeedsLoad([B, T], [T], "B")
  {
    TwoListed(B, T, "B");
    assert B in [B, T];
  }

  /** "B" was evicted for "T" and is still listed. */
  function StillListed(d: Option<Dispatch>): State {
    State(map["T" := ON], [B], [Lost("B"), Placed("T", ON), Marked("T")], [B, T], d)
  }

  function ForB(stage: Stage): Dispatch {
    Dispatch("B", ON, [B], [Lost("B"), Placed("T", ON), Marked("T")], [], [T], 0, stage, false)
  }

  lemma StillListedIsReached()
    ensures Leads(START, StillListed(Some(ForB(Clearing(false)))))
  {
    GateForB();
    assert "g" in ON;
    Replaced("B", ON, "T");
    Looks(StillListed(None), "B", [T]);
    Decides(StillListed(Some(ForB(Looked))), ForB(Looked), false);
  }

  /** A dispatch of "B" then evicts "T", loads nothing and gets through to a worker without "B". */
  lemma ThroughWithoutItsModel()
    ensures exists u :: && Leads(START, u) && AtTheEnd(u) && u.dispatch.value.target == "B" && u.held == map[]
                        && u.dispatch.value.before + u.dispatch.value.after == [Lost("B"), Placed("T", ON), Marked("T"), Lost("T")]
  {
    var d := ForB(Clearing(false));
    StillListedIsReached();
    assert T in [B, T];
    Evicts(StillListed(Some(d)), d, "T");
    var u := State(map["T" := ON] - {"T"}, [B], d.before + [Lost("T")], [B, T], Some(d.(evicted := 1, after := [] + [Lost("T")])));
    assert u.held == map[];
  }

  /** "M", reported on another device, is moved onto "g" and keeps its entry; "T" is then loaded onto "g" beside it. */
  lemma LoadBesideAResident()
    ensures exists u :: && Leads(START, u) && Enabled(u, Load(Some(ON))) && u.dispatch.value.target == "T"
                        && InTheWay(u, u.dispatch.value, "M") && Marked("M") in u.dispatch.value.before
  {
    var m := Listed("M", ["h"]);
    assert "h" in m.devices && "h" !in ON;
    Replaced("M", ["h"], "M");
    assert m in [m];
    assert MarkedIn([m], "M") == [m];
    var log := [Lost("M"), Placed("M", ON), Marked("M")];
    var s := State(map["M" := ON], [m], log, [m], None);
    OneListed(m, "T");
    Looks(s, "T", []);
    var d := Dispatch("T", ON, [m], log, [], [], 0, Looked, false);
    Decides(s.(dispatch := Some(d)), d, true);
    var u := s.(dispatch := Some(d.(stage := Clearing(true))));
    assert "g" in ON;
    assert InTheWay(u, u.dispatch.value, "M");
  }

  /** The worker drops "T" right after loading it, and a heartbeat says so before the load is entered: the list names a model the worker does not hold. */
  lemma EnteredLateIsReached()
    ensures Leads(START, State(map[], [], [Marked("T")], [Listed("T", [])], None))
  {
    Stays(START);
    Nothing("T");
    Looks(START, "T", []);
    var d := Dispatch("T", ON, [], [], [], [], 0, Looked, false);
    Decides(START.(dispatch := Some(d)), d, true);
    var cleared := d.(stage := Clearing(true));
    Loads(START.(dispatch := Some(cleared)), cleared);
    var loaded := cleared.(stage := Loaded, after := [] + [Placed("T", ON)]);
    var s := State(START.held["T" := ON], [], [] + [Placed("T", ON)], [], Some(loaded));
    StepOn(START, s, Vanish("T"));
    var gone := Next(s, Vanish("T"));
    assert gone.held == map[];
    StepOn(START, gone, Heartbeat([]));
    var d1 := gone.dispatch.value.(beaten := true);
    Finishes(State(map[], [], [], [], Some(d1)), d1);
    assert [] + [Marked("T")] == [Marked("T")];
    assert MarkedIn([], "T") == [Listed("T", [])];
  }

  /** The next dispatch of "T" goes by that entry, and there has been no news of "T" since the heartbeat. */
  lemma ThroughOnALateEntry()
    ensures exists u :: && Leads(START, u) && AtTheEnd(u) && u.dispatch.value.target == "T" && u.held == map[]
                        && u.dispatch.value.before + u.dispatch.value.after == [Marked("T")] && EnteredLate(u.dispatch.value)
  {
    EnteredLateIsReached();
    var t := Listed("T", []);
    var s := State(map[], [], [Marked("T")], [t], None);
    OneListed(t, "T");
    assert t in [t];
    Looks(s, "T", []);
    var d := Dispatch("T", ON, [], [Marked("T")], [], [], 0, Looked, false);
    Decides(s.(dispatch := Some(d)), d, false);
    var u := s.(dispatch := Some(d.(stage := Clearing(false))));
    assert AtTheEnd(u) && EnteredLate(u.dispatch.value);
  }
}
