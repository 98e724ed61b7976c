/** Runs in which two dispatches of one request take each other's marker, record or flag. */
module CancelWindowExamples {
  import opened CancelWindow
  import opened InflightTracker

  const JOB: RequestId := [1]
  const REC := Record("worker|a", 1.0, "m", "a", "", false, 0, "r")

  /** Some run leads from the start to `s`. */
  ghost predicate Reachable(s: State) { exists steps: seq<Step> :: ValidRun(START, steps) && Exec(START, steps) == s }

  lemma {:induction false} OneMore(s: State, steps: seq<Step>, c: Step)
    requires ValidRun(s, steps) && Enabled(Exec(s, steps), c)
    ensures ValidRun(s, steps + [c]) && Exec(s, steps + [c]) == Next(Exec(s, steps), c)
    decreases |steps|
  {
    if steps == [] {
      assert [] + [c] == [c] && [c][1..] == [];
      assert ValidRun(Next(s, c), []);
    } else {
      OneMore(Next(s, steps[0]), steps[1..], c);
      assert (steps + [c])[1..] == steps[1..] + [c];
    }
  }

  lemma StepOn(s: State, c: Step)
    requires Reachable(s) && Enabled(s, c)
    ensures Reachable(Next(s, c))
  {
    var steps: seq<Step> :| ValidRun(START, steps) && Exec(START, steps) == s;
    OneMore(START, steps, c);
  }

  lemma StartIsReachable()
    ensures Reachable(START)
  {
    assert ValidRun(START, []);
  }

  /** Dispatch 0 is loading. */
  function Loading0(): State { State(IDLE.(dispatching := map[JOB := false]), map[0 := Dispatch(JOB, Loading, true, false, false)]) }

  /** Dispatch 0 is in flight. */
  function InFlight0(): State
    ensures InFlight0().tracker.records == map[JOB := REC] && InFlight0().tracker.dispatching == map[]
    ensures InFlight0().dispatches == map[0 := Dispatch(JOB, InFlight, true, false, false)]
  {
    Next(Loading0(), Promote(0, REC))
  }

  /** Dispatch 0 streams, and still owes its clear. */
  function Streaming0(): State
    ensures Streaming0().tracker.records == map[JOB := REC.(jobID := "j")] && Streaming0().tracker.dispatching == map[]
    ensures Streaming0().dispatches == map[0 := Dispatch(JOB, Streaming, true, false, false)]
  {
    Next(InFlight0(), Assign(0, "j"))
  }

  lemma FirstDispatchIsReachable()
    ensures Reachable(Loading0()) && Reachable(InFlight0()) && Reachable(Streaming0())
  {
    StartIsReachable();
    assert Next(START, Mark(0, JOB)) == Loading0();
    StepOn(START, Mark(0, JOB));
    StepOn(Loading0(), Promote(0, REC));
    StepOn(InFlight0(), Assign(0, "j"));
  }

  predicate Unfindable(s: State, id: DispatchId) {
    id in s.dispatches && InWindow(s.dispatches[id].phase) && !Findable(s, s.dispatches[id].rid)
  }

  // --- A clear that comes late ---

  /** The stream of dispatch 0 ended and its record is finished; its clear has still to run. */
  function Settling0(): State
    ensures Settling0().tracker.records == map[] && Settling0().tracker.dispatching == map[]
    ensures Settling0().dispatches == map[0 := Dispatch(JOB, Settling(false), true, false, false)]
  {
    Next(Next(Streaming0(), ReadFlag(0)), Finish(0))
  }

  lemma Settling0IsReachable()
    ensures Reachable(Settling0())
  {
    FirstDispatchIsReachable();
    StepOn(Streaming0(), ReadFlag(0));
    StepOn(Next(Streaming0(), ReadFlag(0)), Finish(0));
  }

  /** The request is dispatched again, and only then does the first dispatch run its deferred clear. */
  lemma LateClearOpensAGap()
    ensures exists s :: Reachable(s) && Unfindable(s, 1)
  {
    Settling0IsReachable();
    var a := Next(Settling0(), Mark(1, JOB));
    StepOn(Settling0(), Mark(1, JOB));
    StepOn(a, Clear(0));
    assert Unfindable(Next(a, Clear(0)), 1);
  }

  /** The failed load resubmits, the request is dispatched again, and then the failed dispatch returns. */
  lemma FailedLoadsClearOpensAGap()
    ensures exists s :: Reachable(s) && Unfindable(s, 1)
  {
    FirstDispatchIsReachable();
    var a := Next(Loading0(), LoadFails(0));
    StepOn(Loading0(), LoadFails(0));
    var b := Next(a, Mark(1, JOB));
    StepOn(a, Mark(1, JOB));
    StepOn(b, Clear(0));
    assert Unfindable(Next(b, Clear(0)), 1);
  }

  // --- A record shared by two dispatches ---

  /** Requeued while its old pump runs, the request is dispatched a second time; `noted` says a cancel came in between. */
  function MarkedTwice(noted: bool): State
    ensures var s := MarkedTwice(noted);
            && s.tracker.records == map[JOB := REC.(jobID := "j", cancelled := noted)] && s.tracker.dispatching == map[JOB := false]
            && s.dispatches == map[0 := Dispatch(JOB, Streaming, true, false, noted), 1 := Dispatch(JOB, Loading, true, false, false)]
  {
    Next(if noted then Next(Streaming0(), CancelByRecord(JOB)) else Streaming0(), Mark(1, JOB))
  }

  lemma MarkedTwiceIsReachable(noted: bool)
    ensures Reachable(MarkedTwice(noted))
  {
    FirstDispatchIsReachable();
    StepOn(Streaming0(), CancelByRecord(JOB));
    StepOn(if noted then Next(Streaming0(), CancelByRecord(JOB)) else Streaming0(), Mark(1, JOB));
  }

  /** ...and promoted over the first record. */
  function InFlightTwice(noted: bool): State
    ensures var s := InFlightTwice(noted);
            && s.tracker.records == map[JOB := REC] && s.tracker.dispatching == map[]
            && s.dispatches == map[0 := Dispatch(JOB, Streaming, true, false, noted), 1 := Dispatch(JOB, InFlight, true, false, false)]
  {
    Next(MarkedTwice(noted), Promote(1, REC))
  }

  lemma InFlightTwiceIsReachable(noted: bool)
    ensures Reachable(InFlightTwice(noted))
  {
    MarkedTwiceIsReachable(noted);
    StepOn(MarkedTwice(noted), Promote(1, REC));
  }

  /** The old pump's finish takes the new record. */
  lemma OldPumpOpensAGap()
    ensures exists s :: Reachable(s) && Unfindable(s, 1)
  {
    InFlightTwiceIsReachable(false);
    var a := Next(InFlightTwice(false), ReadFlag(0));
    StepOn(InFlightTwice(false), ReadFlag(0));
    StepOn(a, Finish(0));
    assert Unfindable(Next(a, Finish(0)), 1);
  }

  /** A cancel noted on the first dispatch's record is overwritten by the second's, and the first's pump reads none. */
  lemma SecondRecordWipesTheCancel()
    ensures exists s :: Reachable(s) && 0 in s.dispatches && s.dispatches[0].noted && s.dispatches[0].phase == Reading(false)
  {
    InFlightTwiceIsReachable(true);
    var a := Next(InFlightTwice(true), ReadFlag(0));
    StepOn(InFlightTwice(true), ReadFlag(0));
    assert a.dispatches[0].noted && a.dispatches[0].phase == Reading(false);
  }

  /** In flight, and marked again by a second dispatch. */
  function Marked0(): State
    ensures Marked0().tracker.records == map[JOB := REC] && Marked0().tracker.dispatching == map[JOB := false]
    ensures Marked0().dispatches
         == map[0 := Dispatch(JOB, InFlight, true, false, false), 1 := Dispatch(JOB, Loading, true, false, false)]
  {
    Next(InFlight0(), Mark(1, JOB))
  }

  /** A promotion over a record leaves that record's seconds on the ledger for good. */
  lemma SecondRecordLeaksSeconds()
    ensures exists s :: Reachable(s) && !LedgerOk(s.tracker)
  {
    FirstDispatchIsReachable();
    StepOn(InFlight0(), Mark(1, JOB));
    StepOn(Marked0(), Promote(1, REC));
    PromotedTwiceIsOff();
  }

  lemma PromotedTwiceIsOff()
    ensures !LedgerOk(Next(Marked0(), Promote(1, REC)).tracker)
  {
    InFlight0IsExact();
    LedgerStaysExactExactly(InFlight0(), Mark(1, JOB));
    LedgerStaysExactExactly(Marked0(), Promote(1, REC));
  }

  lemma InFlight0IsExact()
    ensures LedgerOk(InFlight0().tracker)
  {
    LedgerStaysExactExactly(START, Mark(0, JOB));
    assert Next(START, Mark(0, JOB)) == Loading0();
    LedgerStaysExactExactly(Loading0(), Promote(0, REC));
  }

  // --- A flag on a marker shared by two dispatches ---

  /** Dispatch 0 was told of a cancel through its marker; dispatch 1 then marked the request again. */
  function ToldThenMarked(): State
    ensures ToldThenMarked().tracker == IDLE.(dispatching := map[JOB := false])
    ensures ToldThenMarked().dispatches
         == map[0 := Dispatch(JOB, Loading, true, true, false), 1 := Dispatch(JOB, Loading, true, false, false)]
  {
    Next(Next(Loading0(), CancelByMarker(JOB)), Mark(1, JOB))
  }

  lemma ToldThenMarkedIsReachable()
    ensures Reachable(ToldThenMarked())
  {
    FirstDispatchIsReachable();
    StepOn(Loading0(), CancelByMarker(JOB));
    StepOn(Next(Loading0(), CancelByMarker(JOB)), Mark(1, JOB));
  }

  /** The second marker wiped the cancel, and the first dispatch reaches the worker. */
  lemma SecondMarkWipesTheFlag()
    ensures exists s :: Reachable(s) && 0 in s.dispatches && s.dispatches[0].told && s.dispatches[0].phase.Streaming?
  {
    ToldThenMarkedIsReachable();
    var a := Next(ToldThenMarked(), Promote(0, REC));
    StepOn(ToldThenMarked(), Promote(0, REC));
    StepOn(a, Assign(0, "j"));
    assert Next(a, Assign(0, "j")).dispatches[0].told && Next(a, Assign(0, "j")).dispatches[0].phase.Streaming?;
  }
}
