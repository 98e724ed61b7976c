/**
 What a worker really holds against the list of it that the scheduler reads. An
 unload's acknowledgement leaves that list alone: only a heartbeat replaces it, and a
 finished load adds the loaded model, without devices, if it is not listed yet.
 Dispatches to one worker come one at a time; heartbeats, and loads and unloads that are
 not the dispatch's own, come in between anything.
 */
module Residency {
  import opened Wrappers
  import opened DeviceGate

  /** What befalls one model after a heartbeat; `Marked` is a finished load entered in the list. */
  datatype Event =
    | Placed(model: Name, devices: seq<Name>)
    | Lost(model: Name)
    | Marked(model: Name)

  datatype Stage = Looked | Clearing(needsLoad: bool) | Loaded | Entered

  /** `report` and `before` are the last heartbeat and what followed it, as of the look at the list; `after` is what came since. */
  datatype Dispatch = Dispatch(
    target: Name, predicted: seq<Name>, report: seq<Resident>, before: seq<Event>, after: seq<Event>,
    named: seq<Resident>, evicted: nat, stage: Stage, beaten: bool)

  /** `held` gives each model on the worker its devices; `seen` is the scheduler's list; `log` is what followed the last heartbeat. */
  datatype State = State(
    held: map<Name, seq<Name>>, report: seq<Resident>, log: seq<Event>, seen: seq<Resident>, dispatch: Option<Dispatch>)

  const START := State(map[], [], [], [], None)

  datatype Step =
    | Heartbeat(list: seq<Resident>)
    | Appear(model: Name, devices: seq<Name>)             // loaded by someone else
    | Vanish(model: Name)                                 // an operator's or idle eviction, or the worker itself
    | Look(target: Name, predicted: seq<Name>)
    | Decide(measured: bool, inflight: set<Name>)
    | EvictNext(acked: bool)
    | Load(placed: Option<seq<Name>>)                     // None is a failed load
    | Mark
    | Through

  /** A heartbeat lists what is held; it may leave a model's devices out. */
  predicate Lists(held: map<Name, seq<Name>>, list: seq<Resident>) {
    && (forall m :: m in held ==> Names(list, m))
    && (forall lm :: lm in list ==> lm.model in held && (lm.devices == [] || lm.devices == held[lm.model]))
  }

  /** A model already listed keeps its entry, devices included. */
  function MarkedIn(list: seq<Resident>, model: Name): seq<Resident> {
    if Names(list, model) then list else list + [Resident(model, [], 0)]
  }

  /** What an event does to the worker. */
  function Befalls(held: map<Name, seq<Name>>, e: Event): map<Name, seq<Name>> {
    match e
    case Placed(m, devices) => held[m := devices]
    case Lost(m) => held - {m}
    case Marked(_) => held
  }

  function Happens(s: State, e: Event): State {
    s.(held := Befalls(s.held, e), log := s.log + [e],
       dispatch := if s.dispatch.Some? then Some(s.dispatch.value.(after := s.dispatch.value.after + [e])) else None)
  }

  function To(s: State, stage: Stage): State
    requires s.dispatch.Some?
  {
    s.(dispatch := Some(s.dispatch.value.(stage := stage)))
  }

  function OneEvicted(s: State): State
    requires s.dispatch.Some?
  {
    s.(dispatch := Some(s.dispatch.value.(evicted := s.dispatch.value.evicted + 1)))
  }

  function EnteredIn(s: State): State
    requires s.dispatch.Some?
  {
    To(Happens(s, Marked(s.dispatch.value.target)), Stage.Entered).(seen := MarkedIn(s.seen, s.dispatch.value.target))
  }

  predicate Gone(d: Dispatch) { d.evicted == |d.named| }

  predicate Enabled(s: State, step: Step) {
    match step
    case Heartbeat(list) => Lists(s.held, list)
    case Appear(_, _) => true
    case Vanish(_) => true
    case Look(_, _) => s.dispatch.None?
    case Decide(_, _) => s.dispatch.Some? && s.dispatch.value.stage.Looked?
    case EvictNext(_) => s.dispatch.Some? && s.dispatch.value.stage.Clearing? && s.dispatch.value.evicted < |s.dispatch.value.named|
    case Load(_) => s.dispatch.Some? && s.dispatch.value.stage == Clearing(true) && Gone(s.dispatch.value)
    case Mark => s.dispatch.Some? && s.dispatch.value.stage.Loaded?
    case Through => AtTheEnd(s)
  }

  /** Evictions and load are behind it: the job goes out. */
  predicate AtTheEnd(s: State) {
    s.dispatch.Some? && (s.dispatch.value.stage.Entered? || (s.dispatch.value.stage == Clearing(false) && Gone(s.dispatch.value)))
  }

  function Next(s: State, step: Step): State
    requires Enabled(s, step)
  {
    match step
    case Heartbeat(list) =>
      s.(report := list, log := [], seen := list,
         dispatch := if s.dispatch.Some? then Some(s.dispatch.value.(beaten := true)) else None)
    case Appear(m, devices) => Happens(s, Placed(m, devices))
    case Vanish(m) => Happens(s, Lost(m))
    case Look(target, predicted) =>
      s.(dispatch := Some(Dispatch(target, predicted, s.report, s.log, [], Blockers(s.seen, target, predicted), 0, Looked, false)))
    case Decide(measured, inflight) =>
      var d := s.dispatch.value;
      if !measured || AnyBusy(d.named, inflight) then s.(dispatch := None)
      else To(s, Clearing(NeedsLoad(s.seen, d.named, d.target)))
    case EvictNext(acked) =>
      var m := s.dispatch.value.named[s.dispatch.value.evicted].model;
      if acked && Names(s.seen, m) then OneEvicted(Happens(s, Lost(m))) else s.(dispatch := None)
    case Load(placed) =>
      if placed.None? then s.(dispatch := None)
      else To(Happens(s, Placed(s.dispatch.value.target, placed.value)), Loaded)
    case Mark => EnteredIn(s)
    case Through => s.(dispatch := None)
  }

  predicate ValidRun(s: State, steps: seq<Step>)
    decreases |steps|
  {
    steps == [] || (Enabled(s, steps[0]) && ValidRun(Next(s, steps[0]), steps[1..]))
  }

  function Exec(s: State, steps: seq<Step>): State
    requires ValidRun(s, steps)
    decreases |steps|
  {
    if steps == [] then s else Exec(Next(s, steps[0]), steps[1..])
  }

  // --- What the events say ---

  /** The last arrival or departure of a model. */
  function Latest(log: seq<Event>, model: Name): Option<Event> {
    if log == [] then None
    else
      var e := log[|log| - 1];
      if !e.Marked? && e.model == model then Some(e) else Latest(log[..|log| - 1], model)
  }

  /** The list a heartbeat and the finished loads after it make. */
  function ListAfter(report: seq<Resident>, log: seq<Event>): seq<Resident> {
    if log == [] then report
    else
      var list := ListAfter(report, log[..|log| - 1]);
      var e := log[|log| - 1];
      if e.Marked? then MarkedIn(list, e.model) else list
  }

  lemma OneMoreEvent(report: seq<Resident>, log: seq<Event>, e: Event, model: Name)
    ensures Latest(log + [e], model) == if !e.Marked? && e.model == model then Some(e) else Latest(log, model)
    ensures ListAfter(report, log + [e]) == if e.Marked? then MarkedIn(ListAfter(report, log), e.model) else ListAfter(report, log)
  {
    assert (log + [e])[..|log|] == log;
  }

  lemma {:induction false} LatestOf(a: seq<Event>, b: seq<Event>, model: Name)
    ensures Latest(a + b, model) == if Latest(b, model).Some? then Latest(b, model) else Latest(a, model)
  {
    if b == [] {
      assert a + b == a;
    } else {
      var init, e := b[..|b| - 1], b[|b| - 1];
      assert b == init + [e] && a + b == (a + init) + [e];
      OneMoreEvent([], init, e, model);
      OneMoreEvent([], a + init, e, model);
      LatestOf(a, init, model);
    }
  }

  lemma {:induction false} LatestIsNews(log: seq<Event>, model: Name)
    ensures Latest(log, model).Some? ==> Latest(log, model).value in log && Latest(log, model).value.model == model
    ensures Latest(log, model).Some? ==> !Latest(log, model).value.Marked?
    ensures Latest(log, model).None? ==> forall e :: e in log && e.model == model ==> e.Marked?
  {
    if log != [] {
      LatestIsNews(log[..|log| - 1], model);
      assert log == log[..|log| - 1] + [log[|log| - 1]];
    }
  }

  /** A model is listed exactly when the heartbeat lists it or a load of it was entered since; entries keep their devices. */
  lemma {:induction false} ListedExactly(report: seq<Resident>, log: seq<Event>)
    ensures forall lm :: lm in ListAfter(report, log) <==>
              lm in report || (lm == Resident(lm.model, [], 0) && Marked(lm.model) in log && !Names(report, lm.model))
  {
    if log != [] {
      var init, e := log[..|log| - 1], log[|log| - 1];
      ListedExactly(report, init);
      assert log == init + [e];
      var list := ListAfter(report, init);
      if e.Marked? {
        assert Names(list, e.model) <==> Names(report, e.model) || Marked(e.model) in init by {
          if Marked(e.model) in init && !Names(report, e.model) {
            assert Resident(e.model, [], 0) in list;
          }
          if Names(report, e.model) {
            var lm :| lm in report && lm.model == e.model;
            assert lm in list;
          }
        }
      }
    }
  }

  /** What the heartbeat and the events after it say of one model is how things stand. */
  ghost predicate TellsOf(report: seq<Resident>, log: seq<Event>, held: map<Name, seq<Name>>, m: Name) {
    match Latest(log, m)
    case None => && (m in held <==> Names(report, m))
                 && (m in held ==> forall lm :: lm in report && lm.model == m ==> lm.devices == [] || lm.devices == held[m])
    case Some(e) => if e.Placed? then m in held && held[m] == e.devices else m !in held
  }

  ghost predicate Tells(report: seq<Resident>, log: seq<Event>, held: map<Name, seq<Name>>) {
    forall m :: TellsOf(report, log, held, m)
  }

  // --- The invariant ---

  predicate EndsIn(whole: seq<Event>, end: seq<Event>) { |end| <= |whole| && whole[|whole| - |end|..] == end }

  predicate Past(d: Dispatch) { d.stage.Loaded? || d.stage.Entered? }

  /** With no news of the target, its heartbeat or an entry made before the look lists it. */
  predicate WasListed(d: Dispatch) {
    d.target != "" && Latest(d.before + d.after, d.target).None? ==> Names(d.report, d.target) || Marked(d.target) in d.before
  }

  predicate GateOk(d: Dispatch) {
    && d.named == Blockers(ListAfter(d.report, d.before), d.target, d.predicted)
    && d.evicted <= |d.named|
    && (forall k :: 0 <= k < d.evicted ==> Latest(d.after, d.named[k].model).Some?)
    && (Past(d) ==> Gone(d) && Latest(d.after, d.target).Some?)
    && (forall e :: e in d.after && e.Marked? ==> d.stage.Entered? && e.model == d.target)
    && (d.stage == Clearing(false) ==> WasListed(d))
  }

  ghost predicate LogOk(s: State, d: Dispatch) {
    && Tells(d.report, d.before + d.after, s.held)
    && if d.beaten then EndsIn(d.after, s.log) else s.report == d.report && s.log == d.before + d.after
  }

  ghost predicate Inv(s: State) {
    && Tells(s.report, s.log, s.held)
    && s.seen == ListAfter(s.report, s.log)
    && (s.dispatch.Some? ==> GateOk(s.dispatch.value) && LogOk(s, s.dispatch.value))
  }

  lemma TellsOn(report: seq<Resident>, log: seq<Event>, held: map<Name, seq<Name>>, e: Event)
    requires Tells(report, log, held)
    ensures Tells(report, log + [e], Befalls(held, e))
  {
    forall m ensures TellsOf(report, log + [e], Befalls(held, e), m) {
      OneMoreEvent(report, log, e, m);
      assert TellsOf(report, log, held, m);
    }
  }

  lemma NewsStays(a: seq<Event>, e: Event, model: Name)
    ensures Latest(a, model).Some? ==> Latest(a + [e], model).Some?
  {
    OneMoreEvent([], a, e, model);
  }

  lemma LogGrows(s: State, d: Dispatch, e: Event)
    requires LogOk(s, d)
    ensures LogOk(s.(held := Befalls(s.held, e), log := s.log + [e]), d.(after := d.after + [e]))
  {
    assert d.before + (d.after + [e]) == (d.before + d.after) + [e];
    TellsOn(d.report, d.before + d.after, s.held, e);
  }

  lemma GateKeeps(d: Dispatch, e: Event)
    requires GateOk(d) && !e.Marked?
    ensures GateOk(d.(after := d.after + [e]))
  {
    forall m ensures Latest(d.after, m).Some? ==> Latest(d.after + [e], m).Some? {
      NewsStays(d.after, e, m);
    }
    assert d.before + (d.after + [e]) == (d.before + d.after) + [e];
    NewsStays(d.before + d.after, e, d.target);
  }

  lemma EventKeeps(s: State, e: Event)
    requires Inv(s) && !e.Marked?
    ensures Inv(Happens(s, e))
  {
    TellsOn(s.report, s.log, s.held, e);
    OneMoreEvent(s.report, s.log, e, e.model);
    if s.dispatch.Some? {
      LogGrows(s, s.dispatch.value, e);
      GateKeeps(s.dispatch.value, e);
    }
  }

  lemma HeartbeatKeeps(s: State, list: seq<Resident>)
    requires Inv(s) && Lists(s.held, list)
    ensures Inv(Next(s, Heartbeat(list)))
  {
    assert forall m :: TellsOf(list, [], s.held, m);
  }

  lemma LookKeeps(s: State, target: Name, predicted: seq<Name>)
    requires Inv(s) && s.dispatch.None?
    ensures Inv(Next(s, Look(target, predicted)))
  {
    assert s.log + [] == s.log;
  }

  lemma MarkedNames(report: seq<Resident>, log: seq<Event>, model: Name)
    ensures Names(ListAfter(report, log), model) <==> Names(report, model) || Marked(model) in log
  {
    ListedExactly(report, log);
    var list := ListAfter(report, log);
    if Names(list, model) {
      var lm :| lm in list && lm.model == model;
    }
    if Names(report, model) {
      var lm :| lm in report && lm.model == model;
      assert lm in list;
    } else if Marked(model) in log {
      assert Resident(model, [], 0) in list;
    }
  }

  /** What followed the last heartbeat also followed the one the look went by. */
  lemma SinceIsPart(s: State, d: Dispatch, model: Name)
    requires LogOk(s, d)
    ensures Latest(s.log, model).Some? ==> Latest(d.before + d.after, model).Some?
    ensures forall e :: e in s.log ==> e in d.before || e in d.after
  {
    if d.beaten {
      var rest := d.after[..|d.after| - |s.log|];
      assert d.after == rest + s.log;
      LatestOf(rest, s.log, model);
      LatestOf(d.before, d.after, model);
    }
  }

  /** Taking the target for resident rests on its heartbeat or on an entry older than the look. */
  lemma DecideRests(s: State)
    requires Inv(s) && s.dispatch.Some? && s.dispatch.value.stage.Looked? && Has(s.seen, s.dispatch.value.target)
    ensures WasListed(s.dispatch.value)
  {
    var d := s.dispatch.value;
    var m := d.target;
    if m != "" && Latest(d.before + d.after, m).None? {
      MarkedNames(s.report, s.log, m);
      SinceIsPart(s, d, m);
      if Names(s.report, m) {
        assert TellsOf(s.report, s.log, s.held, m);
        assert TellsOf(d.report, d.before + d.after, s.held, m);
      } else {
        assert Marked(m) in s.log && Marked(m) !in d.after;
      }
    }
  }

  lemma DecideKeeps(s: State, measured: bool, inflight: set<Name>)
    requires Inv(s) && Enabled(s, Decide(measured, inflight))
    ensures Inv(Next(s, Decide(measured, inflight)))
  {
    if Has(s.seen, s.dispatch.value.target) {
      DecideRests(s);
    }
  }

  lemma OneEvictedKeeps(s: State, d: Dispatch)
    requires Inv(s) && s.dispatch == Some(d) && d.stage.Clearing? && d.evicted < |d.named|
    requires Latest(d.after, d.named[d.evicted].model).Some?
    ensures Inv(OneEvicted(s))
  {
    var e := d.(evicted := d.evicted + 1);
    assert GateOk(e);
    assert LogOk(OneEvicted(s), e);
  }

  lemma EvictKeeps(s: State, acked: bool)
    requires Inv(s) && Enabled(s, EvictNext(acked))
    ensures Inv(Next(s, EvictNext(acked)))
  {
    var d := s.dispatch.value;
    var m := d.named[d.evicted].model;
    if acked && Names(s.seen, m) {
      EventKeeps(s, Lost(m));
      OneMoreEvent([], d.after, Lost(m), m);
      OneEvictedKeeps(Happens(s, Lost(m)), d.(after := d.after + [Lost(m)]));
    }
  }

  lemma LoadKeeps(s: State, placed: Option<seq<Name>>)
    requires Inv(s) && Enabled(s, Load(placed))
    ensures Inv(Next(s, Load(placed)))
  {
    if placed.Some? {
      var d := s.dispatch.value;
      var e := Placed(d.target, placed.value);
      EventKeeps(s, e);
      OneMoreEvent([], d.after, e, d.target);
    }
  }

  lemma MarkKeeps(s: State)
    requires Inv(s) && Enabled(s, Mark)
    ensures Inv(Next(s, Mark))
  {
    var d := s.dispatch.value;
    var e := Marked(d.target);
    TellsOn(s.report, s.log, s.held, e);
    OneMoreEvent(s.report, s.log, e, d.target);
    LogGrows(s, d, e);
    forall m ensures Latest(d.after, m).Some? ==> Latest(d.after + [e], m).Some? {
      NewsStays(d.after, e, m);
    }
  }

  lemma StepKeeps(s: State, step: Step)
    requires Inv(s) && Enabled(s, step)
    ensures Inv(Next(s, step))
  {
    match step
    case Heartbeat(list) => HeartbeatKeeps(s, list);
    case Appear(m, devices) => EventKeeps(s, Placed(m, devices));
    case Vanish(m) => EventKeeps(s, Lost(m));
    case Look(target, predicted) => LookKeeps(s, target, predicted);
    case Decide(measured, inflight) => DecideKeeps(s, measured, inflight);
    case EvictNext(acked) => EvictKeeps(s, acked);
    case Load(placed) => LoadKeeps(s, placed);
    case Mark => MarkKeeps(s);
    case Through =>
  }

  lemma {:induction false} RunKeeps(s: State, steps: seq<Step>)
    requires Inv(s) && ValidRun(s, steps)
    ensures Inv(Exec(s, steps))
    decreases |steps|
  {
    if steps != [] {
      StepKeeps(s, steps[0]);
      RunKeeps(Next(s, steps[0]), steps[1..]);
    }
  }

  lemma Reached(steps: seq<Step>)
    requires ValidRun(START, steps)
    ensures Inv(Exec(START, steps))
  {
    assert forall m :: TellsOf([], [], map[], m);
    RunKeeps(START, steps);
  }

  // --- Over every run ---

  /** The entry the gate went by was made for a load that the last heartbeat already left out. */
  predicate EnteredLate(d: Dispatch) { !Names(d.report, d.target) && Marked(d.target) in d.before }

  /**
   A dispatch that gets through finds its model on the worker exactly when the last news of it since the heartbeat
   the gate read is an arrival, or there is none and the gate did not go by an entry made late.
   */
  lemma ThroughHasItsModelExactly(steps: seq<Step>)
    requires ValidRun(START, steps) && AtTheEnd(Exec(START, steps)) && Exec(START, steps).dispatch.value.target != ""
    ensures var s := Exec(START, steps);
            var d := s.dispatch.value;
            var news := Latest(d.before + d.after, d.target);
            d.target in s.held <==> if news.Some? then news.value.Placed? else !EnteredLate(d)
  {
    Reached(steps);
    var s := Exec(START, steps);
    var d := s.dispatch.value;
    LatestOf(d.before, d.after, d.target);
    assert TellsOf(d.report, d.before + d.after, s.held, d.target);
  }

  /** The models of other names on the devices of a load about to be made. */
  predicate InTheWay(s: State, d: Dispatch, m: Name) {
    m != d.target && m in s.held && Overlaps(s.held[m], d.predicted)
  }

  /**
   A load goes onto devices another model holds exactly when the last news of that model since the heartbeat the gate
   read is an arrival there; and the gate had not named it, or it came back after the look.
   */
  lemma LoadIsClearExactly(steps: seq<Step>, placed: Option<seq<Name>>, m: Name)
    requires ValidRun(START, steps) && Enabled(Exec(START, steps), Load(placed))
    ensures var s := Exec(START, steps);
            var d := s.dispatch.value;
            var news := Latest(d.before + d.after, m);
            && (InTheWay(s, d, m) <==> m != d.target && news.Some? && news.value.Placed? && Overlaps(news.value.devices, d.predicted))
            && (InTheWay(s, d, m) ==> !Names(d.named, m) || Latest(d.after, m).Some?)
  {
    Reached(steps);
    var s := Exec(START, steps);
    var d := s.dispatch.value;
    assert TellsOf(d.report, d.before + d.after, s.held, m);
    LatestOf(d.before, d.after, m);
    if InTheWay(s, d, m) && Latest(d.before + d.after, m).None? {
      ReportedIsNamed(s, d, m);
    }
    if Names(d.named, m) {
      NamedIsNews(d, m);
    }
  }

  lemma ReportedIsNamed(s: State, d: Dispatch, m: Name)
    requires GateOk(d) && LogOk(s, d) && InTheWay(s, d, m) && Latest(d.before + d.after, m).None?
    ensures Names(d.named, m)
  {
    assert TellsOf(d.report, d.before + d.after, s.held, m);
    var lm :| lm in d.report && lm.model == m;
    ListedExactly(d.report, d.before);
    BlockersAreExactly(ListAfter(d.report, d.before), d.target, d.predicted);
    assert lm in d.named;
  }

  /** What the scheduler itself loaded is in the way only where the heartbeat lists that model on other devices. */
  lemma OwnLoadsInTheWay(steps: seq<Step>, placed: Option<seq<Name>>, m: Name)
    requires ValidRun(START, steps) && Enabled(Exec(START, steps), Load(placed))
    requires var d := Exec(START, steps).dispatch.value;
             InTheWay(Exec(START, steps), d, m) && Marked(m) in d.before && Latest(d.after, m).None?
    ensures var d := Exec(START, steps).dispatch.value;
            Names(d.report, m) && forall lm :: lm in d.report && lm.model == m ==> lm.devices != [] && !Overlaps(lm.devices, d.predicted)
  {
    Reached(steps);
    var d := Exec(START, steps).dispatch.value;
    ListedExactly(d.report, d.before);
    BlockersAreExactly(ListAfter(d.report, d.before), d.target, d.predicted);
    if Names(d.named, m) {
      NamedIsNews(d, m);
    }
    assert forall lm :: lm in ListAfter(d.report, d.before) && lm.model == m ==> lm !in d.named;
    MarkedNames(d.report, d.before, m);
    var lm :| lm in ListAfter(d.report, d.before) && lm.model == m;
    assert lm in d.report;
  }

  /** Once every named model is evicted, there is news of each. */
  lemma NamedIsNews(d: Dispatch, m: Name)
    requires GateOk(d) && Gone(d) && Names(d.named, m)
    ensures Latest(d.after, m).Some?
  {
    var lm :| lm in d.named && lm.model == m;
    var k :| 0 <= k < |d.named| && d.named[k] == lm;
  }

  /**
   The next gate for any target names nothing exactly when the last heartbeat's list names nothing and every load
   entered since is of a model it lists, or of the target itself. An eviction makes no difference to it.
   */
  lemma NextGateNamesNothingExactly(steps: seq<Step>, target: Name, predicted: seq<Name>)
    requires ValidRun(START, steps)
    ensures var s := Exec(START, steps);
            Blockers(s.seen, target, predicted) == []
            <==> predicted == [] || (&& Blockers(s.report, target, predicted) == []
                                     && forall m :: Marked(m) in s.log ==> m == target || Names(s.report, m))
  {
    Reached(steps);
    var s := Exec(START, steps);
    ListedExactly(s.report, s.log);
    BlockersAreExactly(s.seen, target, predicted);
    BlockersAreExactly(s.report, target, predicted);
    var b, r := Blockers(s.seen, target, predicted), Blockers(s.report, target, predicted);
    if b != [] {
      assert b[0] in b;
      assert b[0] in r || (Marked(b[0].model) in s.log && !Names(s.report, b[0].model));
    }
    if r != [] {
      assert r[0] in r && r[0] in b;
    }
    forall m | b == [] && predicted != [] && Marked(m) in s.log && !Names(s.report, m)
      ensures m == target
    {
      assert Resident(m, [], 0) in s.seen && Resident(m, [], 0) !in b;
    }
  }

  lemma {:induction false} OwnEntryNamesNothing(report: seq<Resident>, before: seq<Event>, after: seq<Event>, target: Name, predicted: seq<Name>)
    requires forall e :: e in after && e.Marked? ==> e.model == target
    ensures Blockers(ListAfter(report, before + after), target, predicted) == Blockers(ListAfter(report, before), target, predicted)
  {
    if after == [] {
      assert before + after == before;
    } else {
      var init, e := after[..|after| - 1], after[|after| - 1];
      assert before + after == (before + init) + [e];
      OwnEntryNamesNothing(report, before, init, target, predicted);
      OneMoreEvent(report, before + init, e, target);
      OneMoreResident(ListAfter(report, before + init), Resident(target, [], 0), target, predicted);
    }
  }

  /** Until a heartbeat, the same gate goes on naming just what it named, whatever was evicted or loaded. */
  lemma GateStillNames(steps: seq<Step>)
    requires ValidRun(START, steps) && Exec(START, steps).dispatch.Some? && !Exec(START, steps).dispatch.value.beaten
    ensures var s := Exec(START, steps);
            var d := s.dispatch.value;
            Blockers(s.seen, d.target, d.predicted) == d.named
  {
    Reached(steps);
    var s := Exec(START, steps);
    var d := s.dispatch.value;
    OwnEntryNamesNothing(d.report, d.before, d.after, d.target, d.predicted);
  }

  /** Only idle models are evicted: the dispatch goes on exactly when it is measured and nothing it named runs a job, by the heartbeat or by a record. */
  lemma GoesOnWhenIdleExactly(s: State, measured: bool, inflight: set<Name>)
    requires Enabled(s, Decide(measured, inflight))
    ensures var d := s.dispatch.value;
            var n := Next(s, Decide(measured, inflight));
            && n.held == s.held && n.seen == s.seen
            && (n.dispatch.Some? <==> measured && forall lm :: lm in d.named ==> lm.active == 0 && lm.model !in inflight)
            && (n.dispatch.Some? ==>
                  && n.dispatch.value == d.(stage := n.dispatch.value.stage)
                  && n.dispatch.value.stage == Clearing(&& d.target != ""
                                                        && (!(exists lm :: lm in s.seen && lm.model == d.target)
                                                            || exists lm :: lm in d.named && lm.model == d.target)))
  {
  }

  /** The next unload lets the dispatch go on exactly when the worker acknowledges it and no heartbeat since the look dropped the model. */
  lemma EvictionGoesExactly(steps: seq<Step>, acked: bool)
    requires ValidRun(START, steps) && Enabled(Exec(START, steps), EvictNext(acked))
    ensures var s := Exec(START, steps);
            var d := s.dispatch.value;
            Next(s, EvictNext(acked)).dispatch.Some? <==> acked && (d.beaten ==> Names(s.report, d.named[d.evicted].model))
  {
    Reached(steps);
    var s := Exec(START, steps);
    var d := s.dispatch.value;
    var m := d.named[d.evicted].model;
    MarkedNames(s.report, s.log, m);
    MarkedNames(d.report, d.before, m);
    BlockersAreExactly(ListAfter(d.report, d.before), d.target, d.predicted);
    assert Names(ListAfter(d.report, d.before), m);
    assert Marked(m) in d.before ==> Marked(m) in d.before + d.after;
    assert Marked(m) !in d.after;
  }

  // --- Where runs lead ---

  ghost predicate Leads(s: State, t: State) { exists steps :: ValidRun(s, steps) && Exec(s, steps) == t }

  lemma Stays(s: State)
    ensures Leads(s, s)
  {
    assert ValidRun(s, []) && Exec(s, []) == s;
  }

  lemma {:induction false} Joined(s: State, steps: seq<Step>, step: Step)
    requires ValidRun(s, steps) && Enabled(Exec(s, steps), step)
    ensures ValidRun(s, steps + [step]) && Exec(s, steps + [step]) == Next(Exec(s, steps), step)
    decreases |steps|
  {
    if steps == [] {
      var n := Next(s, step);
      assert steps + [step] == [step] && [step][1..] == [];
      assert ValidRun(n, []) && Exec(n, []) == n;
    } else {
      Joined(Next(s, steps[0]), steps[1..], step);
      assert (steps + [step])[1..] == steps[1..] + [step];
    }
  }

  /** One more step on from where a run has got to. */
  lemma StepOn(s: State, t: State, step: Step)
    requires Leads(s, t) && Enabled(t, step)
    ensures Leads(s, Next(t, step))
  {
    var steps :| ValidRun(s, steps) && Exec(s, steps) == t;
    Joined(s, steps, step);
  }
}
