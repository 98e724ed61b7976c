/**
 Every interleaving of dispatches and operator cancels over the lifecycle bookkeeping,
 one critical section a step.

 Dispatches have ids of their own and a request may have several at once, but the
 bookkeeping knows requests only: a drain may requeue a request while its old pump runs,
 a failed load resubmits it before its own deferred `clearDispatching`, and a dispatch
 that handed its stream to the pump owes that clear too.
 */
module CancelWindow {
  import opened InflightTracker

  type DispatchId = nat

  datatype Phase =
    | Loading             // marked; the model load may be running
    | Failing             // the load failed
    | Aborted             // a cancel stopped the promotion
    | InFlight            // promoted, not yet assigned
    | Rejected            // the worker refused the job
    | Closing             // refused and finished
    | Streaming           // assigned
    | Reading(was: bool)  // stream over, cancel flag read
    | Settling(was: bool) // record finished
    | Done

  /** `owes` is the deferred clear; `told` and `noted` are the cancels accepted through its marker, and through its record before the flag was read. */
  datatype Dispatch = Dispatch(rid: RequestId, phase: Phase, owes: bool, told: bool, noted: bool)

  datatype State = State(tracker: Tracker, dispatches: map<DispatchId, Dispatch>)

  const START := State(IDLE, map[])

  datatype Step =
    | Mark(id: DispatchId, rid: RequestId)
    | CancelByMarker(rid: RequestId)
    | CancelByRecord(rid: RequestId)
    | LoadFails(id: DispatchId)
    | Promote(id: DispatchId, rec: Record)
    | Assign(id: DispatchId, job: Name)
    | AssignFails(id: DispatchId)
    | ReadFlag(id: DispatchId)
    | Finish(id: DispatchId)
    | Conclude(id: DispatchId)
    | Clear(id: DispatchId)

  predicate In(s: State, id: DispatchId, p: Phase) { id in s.dispatches && s.dispatches[id].phase == p }

  /** The dispatch function has come to its end, or handed over to the pump. */
  predicate Leaving(p: Phase) {
    p.Failing? || p.Aborted? || p.Closing? || p.Streaming? || p.Reading? || p.Settling? || p.Done?
  }

  predicate Enabled(s: State, c: Step) {
    match c
    case Mark(id, _) => id !in s.dispatches
    case CancelByMarker(_) => true
    case CancelByRecord(_) => true
    case LoadFails(id) => In(s, id, Loading)
    case Promote(id, rec) => In(s, id, Loading) && RecordOk(rec) && !rec.cancelled
    case Assign(id, _) => In(s, id, InFlight)
    case AssignFails(id) => In(s, id, InFlight)
    case ReadFlag(id) => In(s, id, Streaming)
    case Finish(id) => id in s.dispatches && (s.dispatches[id].phase.Reading? || s.dispatches[id].phase.Rejected?)
    case Conclude(id) => id in s.dispatches && s.dispatches[id].phase.Settling?
    case Clear(id) => id in s.dispatches && s.dispatches[id].owes && Leaving(s.dispatches[id].phase)
  }

  function To(s: State, id: DispatchId, tracker: Tracker, phase: Phase): State
    requires id in s.dispatches
  {
    State(tracker, s.dispatches[id := s.dispatches[id].(phase := phase)])
  }

  function Told(d: Dispatch, rid: RequestId): Dispatch { if d.rid == rid && d.phase.Loading? then d.(told := true) else d }

  function Noted(d: Dispatch, rid: RequestId): Dispatch {
    if d.rid == rid && (d.phase.InFlight? || d.phase.Streaming?) then d.(noted := true) else d
  }

  function Next(s: State, c: Step): State
    requires Enabled(s, c)
  {
    match c
    case Mark(id, rid) =>
      State(Marked(s.tracker, rid), s.dispatches[id := Dispatch(rid, Loading, true, false, false)])
    case CancelByMarker(rid) =>
      if rid !in s.tracker.dispatching then s
      else State(CancelMarked(s.tracker, rid), map id | id in s.dispatches :: Told(s.dispatches[id], rid))
    case CancelByRecord(rid) =>
      if rid !in s.tracker.records then s
      else State(CancelRecorded(s.tracker, rid), map id | id in s.dispatches :: Noted(s.dispatches[id], rid))
    case LoadFails(id) => To(s, id, s.tracker, Failing)
    case Promote(id, rec) =>
      var rid := s.dispatches[id].rid;
      To(s, id, Started(s.tracker, rid, rec), if CancelledMidDispatch(s.tracker, rid) then Aborted else InFlight)
    case Assign(id, job) => To(s, id, Attached(s.tracker, s.dispatches[id].rid, job), Streaming)
    case AssignFails(id) => To(s, id, s.tracker, Rejected)
    case ReadFlag(id) =>
      var rid := s.dispatches[id].rid;
      To(s, id, s.tracker, Reading(rid in s.tracker.records && s.tracker.records[rid].cancelled))
    case Finish(id) =>
      var d := s.dispatches[id];
      To(s, id, Finished(s.tracker, d.rid), if d.phase.Rejected? then Closing else Settling(d.phase.was))
    case Conclude(id) => To(s, id, s.tracker, Done)
    case Clear(id) =>
      State(Cleared(s.tracker, s.dispatches[id].rid), s.dispatches[id := s.dispatches[id].(owes := false)])
  }

  predicate ValidRun(s: State, steps: seq<Step>)
    decreases |steps|
  {
    steps == [] || (Enabled(s, steps[0]) && ValidRun(Next(s, steps[0]), steps[1..]))
  }

  function Exec(s: State, steps: seq<Step>): State
    requires ValidRun(s, steps)
    decreases |steps|
  {
    if steps == [] then s else Exec(Next(s, steps[0]), steps[1..])
  }

  // --- The window: from the marker until the promotion aborts or the record is finished ---

  predicate HoldsRecord(p: Phase) { p.InFlight? || p.Rejected? || p.Streaming? || p.Reading? }

  predicate InWindow(p: Phase) { p.Loading? || HoldsRecord(p) }

  /** A cancel finds the request: it has a marker or a record. */
  predicate Findable(s: State, rid: RequestId) { rid in s.tracker.dispatching || rid in s.tracker.records }

  predicate AllFindable(s: State) {
    forall id :: id in s.dispatches && InWindow(s.dispatches[id].phase) ==> Findable(s, s.dispatches[id].rid)
  }

  /** A dispatch of the request, other than `id`, is in its window. */
  predicate OtherInWindow(s: State, id: DispatchId, rid: RequestId) {
    exists other :: other in s.dispatches && other != id && s.dispatches[other].rid == rid && InWindow(s.dispatches[other].phase)
  }

  /** The step takes the only marker, or the only record, from under a dispatch that still needs it. */
  predicate Loses(s: State, c: Step)
    requires Enabled(s, c)
  {
    match c
    case Clear(id) =>
      var d := s.dispatches[id];
      d.rid !in s.tracker.records && (InWindow(d.phase) || OtherInWindow(s, id, d.rid))
    case Finish(id) => s.dispatches[id].rid !in s.tracker.dispatching && OtherInWindow(s, id, s.dispatches[id].rid)
    case _ => false
  }

  /**
   A dispatch becomes unfindable exactly when another's clear removes the request's marker
   while it has no record, or another's pump or refusal finishes the request's record while
   it has no marker.
   */
  lemma GapExactlyWhenTakenAway(s: State, c: Step)
    requires AllFindable(s) && Enabled(s, c)
    ensures AllFindable(Next(s, c)) <==> !Loses(s, c)
  {
    var n := Next(s, c);
    if c.Clear? && Loses(s, c) {
      LostByClear(s, c.id);
    } else if c.Finish? && Loses(s, c) {
      LostByFinish(s, c.id);
    } else {
      forall id | id in n.dispatches && InWindow(n.dispatches[id].phase)
        ensures Findable(n, n.dispatches[id].rid)
      {
        if id in s.dispatches { StaysFindable(s, c, id); }
      }
    }
  }

  lemma LostByClear(s: State, id: DispatchId)
    requires AllFindable(s) && Enabled(s, Clear(id)) && Loses(s, Clear(id))
    ensures !AllFindable(Next(s, Clear(id)))
  {
    var n, rid := Next(s, Clear(id)), s.dispatches[id].rid;
    assert !Findable(n, rid);
    var other :| other in s.dispatches && s.dispatches[other].rid == rid && InWindow(s.dispatches[other].phase);
    assert n.dispatches[other].rid == rid && InWindow(n.dispatches[other].phase);
  }

  lemma LostByFinish(s: State, id: DispatchId)
    requires AllFindable(s) && Enabled(s, Finish(id)) && Loses(s, Finish(id))
    ensures !AllFindable(Next(s, Finish(id)))
  {
    var n, rid := Next(s, Finish(id)), s.dispatches[id].rid;
    assert !Findable(n, rid);
    var other :| other in s.dispatches && other != id && s.dispatches[other].rid == rid && InWindow(s.dispatches[other].phase);
    assert n.dispatches[other] == s.dispatches[other];
  }

  lemma StaysFindable(s: State, c: Step, id: DispatchId)
    requires AllFindable(s) && Enabled(s, c) && !Loses(s, c)
    requires id in s.dispatches && InWindow(Next(s, c).dispatches[id].phase)
    ensures Findable(Next(s, c), Next(s, c).dispatches[id].rid)
  {
    var rid := s.dispatches[id].rid;
    assert InWindow(s.dispatches[id].phase) ==> Findable(s, rid);
    if c.Clear? && s.dispatches[c.id].rid == rid && id != c.id { assert OtherInWindow(s, c.id, rid); }
    if c.Finish? && s.dispatches[c.id].rid == rid && id != c.id { assert OtherInWindow(s, c.id, rid); }
  }

  // --- Nothing else can be found ---

  predicate Owing(s: State, rid: RequestId, id: DispatchId) {
    id in s.dispatches && s.dispatches[id].rid == rid && s.dispatches[id].owes
  }

  predicate Holding(s: State, rid: RequestId, id: DispatchId) {
    id in s.dispatches && s.dispatches[id].rid == rid && HoldsRecord(s.dispatches[id].phase)
  }

  /** A marker is some dispatch's that still owes its clear; a record is some dispatch's in flight. */
  ghost predicate NoStrays(s: State) {
    && (forall rid :: rid in s.tracker.dispatching ==> exists id :: Owing(s, rid, id))
    && (forall rid :: rid in s.tracker.records ==> exists id :: Holding(s, rid, id))
  }

  lemma StepKeepsNoStrays(s: State, c: Step)
    requires NoStrays(s) && Enabled(s, c)
    ensures NoStrays(Next(s, c))
  {
    var n := Next(s, c);
    forall rid | rid in n.tracker.dispatching
      ensures exists id :: Owing(n, rid, id)
    {
      MarkerHasItsDispatch(s, c, rid);
    }
    forall rid | rid in n.tracker.records
      ensures exists id :: Holding(n, rid, id)
    {
      RecordHasItsDispatch(s, c, rid);
    }
  }

  lemma MarkerHasItsDispatch(s: State, c: Step, rid: RequestId)
    requires NoStrays(s) && Enabled(s, c) && rid in Next(s, c).tracker.dispatching
    ensures exists id :: Owing(Next(s, c), rid, id)
  {
    if c.Mark? && c.rid == rid {
      assert Owing(Next(s, c), rid, c.id);
    } else {
      var id :| Owing(s, rid, id);
      assert Owing(Next(s, c), rid, id);
    }
  }

  lemma RecordHasItsDispatch(s: State, c: Step, rid: RequestId)
    requires NoStrays(s) && Enabled(s, c) && rid in Next(s, c).tracker.records
    ensures exists id :: Holding(Next(s, c), rid, id)
  {
    if rid !in s.tracker.records {
      assert c.Promote? && Holding(Next(s, c), rid, c.id);
    } else {
      var id :| Holding(s, rid, id);
      assert Holding(Next(s, c), rid, id);
    }
  }

  lemma {:induction false} OnlyLiveIsFindable(s: State, steps: seq<Step>)
    requires NoStrays(s) && ValidRun(s, steps)
    ensures NoStrays(Exec(s, steps))
    decreases |steps|
  {
    if steps != [] {
      StepKeepsNoStrays(s, steps[0]);
      OnlyLiveIsFindable(Next(s, steps[0]), steps[1..]);
    }
  }

  // --- One dispatch of a request at a time ---

  /** Its pump has finished the record and its clear has run. */
  predicate Over(d: Dispatch) { !d.owes && !InWindow(d.phase) }

  /** A request is dispatched again only when its earlier dispatches are over. */
  predicate Turnwise(s: State, c: Step) {
    c.Mark? ==> forall id :: id in s.dispatches && s.dispatches[id].rid == c.rid ==> Over(s.dispatches[id])
  }

  predicate OneAtATime(s: State, steps: seq<Step>)
    requires ValidRun(s, steps)
    decreases |steps|
  {
    steps == [] || (Turnwise(s, steps[0]) && OneAtATime(Next(s, steps[0]), steps[1..]))
  }

  /** What a dispatch that is alone with its request can rely on. */
  predicate Kept(s: State, d: Dispatch) {
    && (d.phase.Loading? ==> d.owes && d.rid in s.tracker.dispatching && d.rid !in s.tracker.records)
    && (HoldsRecord(d.phase) ==> d.rid in s.tracker.records)
    && (d.phase.Loading? && d.told ==> s.tracker.dispatching[d.rid])
    && (d.told ==> d.phase.Loading? || d.phase.Failing? || d.phase.Aborted?)
    && (d.noted && HoldsRecord(d.phase) ==> s.tracker.records[d.rid].cancelled)
    && (d.noted && (d.phase.Reading? || d.phase.Settling?) ==> d.phase.was)
    && (d.noted ==> !d.phase.Loading? && !d.phase.Failing? && !d.phase.Aborted?)
  }

  ghost predicate Alone(s: State) {
    && NoStrays(s)
    && (forall id :: id in s.dispatches ==> Kept(s, s.dispatches[id]))
    && (forall id, other :: id in s.dispatches && other in s.dispatches && id != other
                            && s.dispatches[id].rid == s.dispatches[other].rid ==>
                              Over(s.dispatches[id]) || Over(s.dispatches[other]))
  }

  lemma TurnKeepsAlone(s: State, c: Step)
    requires Alone(s) && Enabled(s, c) && Turnwise(s, c)
    ensures Alone(Next(s, c))
  {
    var n := Next(s, c);
    StepKeepsNoStrays(s, c);
    forall id | id in n.dispatches
      ensures Kept(n, n.dispatches[id])
    {
      if id in s.dispatches { TurnKeeps(s, c, id); } else { FreshIsKept(s, c); }
    }
    forall id, other | id in n.dispatches && other in n.dispatches && id != other && n.dispatches[id].rid == n.dispatches[other].rid
      ensures Over(n.dispatches[id]) || Over(n.dispatches[other])
    {
      if id in s.dispatches { OverStaysOver(s, c, id); }
      if other in s.dispatches { OverStaysOver(s, c, other); }
    }
  }

  lemma OverStaysOver(s: State, c: Step, id: DispatchId)
    requires Enabled(s, c) && id in s.dispatches
    ensures Next(s, c).dispatches[id].rid == s.dispatches[id].rid
    ensures Over(s.dispatches[id]) ==> Over(Next(s, c).dispatches[id])
  {
  }

  lemma FreshIsKept(s: State, c: Step)
    requires Alone(s) && Enabled(s, c) && Turnwise(s, c) && c.Mark?
    ensures Kept(Next(s, c), Next(s, c).dispatches[c.id])
  {
    assert c.rid in s.tracker.records ==> exists id :: Holding(s, c.rid, id);
    assert forall id :: !Holding(s, c.rid, id);
  }

  /** The step of another dispatch of the same request is the step of one that is over: it changes nothing here. */
  lemma TurnKeeps(s: State, c: Step, id: DispatchId)
    requires Alone(s) && Enabled(s, c) && Turnwise(s, c) && id in s.dispatches
    ensures Kept(Next(s, c), Next(s, c).dispatches[id])
  {
    assert Kept(s, s.dispatches[id]);
    if c.CancelByMarker? || c.CancelByRecord? {
      CancelKeeps(s, c, id);
    } else if c.id == id {
      OwnStepKeeps(s, c);
    } else {
      OtherStepKeeps(s, c, id);
    }
  }

  lemma CancelKeeps(s: State, c: Step, id: DispatchId)
    requires Enabled(s, c) && (c.CancelByMarker? || c.CancelByRecord?) && id in s.dispatches && Kept(s, s.dispatches[id])
    ensures Kept(Next(s, c), Next(s, c).dispatches[id])
  {
  }

  lemma OwnStepKeeps(s: State, c: Step)
    requires Enabled(s, c) && !c.CancelByMarker? && !c.CancelByRecord? && c.id in s.dispatches && Kept(s, s.dispatches[c.id])
    ensures Kept(Next(s, c), Next(s, c).dispatches[c.id])
  {
  }

  lemma OtherStepKeeps(s: State, c: Step, id: DispatchId)
    requires Enabled(s, c) && Turnwise(s, c) && !c.CancelByMarker? && !c.CancelByRecord? && c.id != id
    requires id in s.dispatches && Kept(s, s.dispatches[id])
    requires c.id in s.dispatches && s.dispatches[c.id].rid == s.dispatches[id].rid ==>
               Over(s.dispatches[id]) || Over(s.dispatches[c.id])
    requires c.id in s.dispatches ==> Kept(s, s.dispatches[c.id])
    ensures Kept(Next(s, c), Next(s, c).dispatches[id])
  {
  }

  lemma AloneIsFindable(s: State)
    requires Alone(s)
    ensures AllFindable(s)
  {
    forall id | id in s.dispatches && InWindow(s.dispatches[id].phase)
      ensures Findable(s, s.dispatches[id].rid)
    {
      assert Kept(s, s.dispatches[id]);
    }
  }

  lemma {:induction false} TurnsKeepAlone(s: State, steps: seq<Step>)
    requires Alone(s) && ValidRun(s, steps) && OneAtATime(s, steps)
    ensures Alone(Exec(s, steps))
    decreases |steps|
  {
    if steps != [] {
      TurnKeepsAlone(s, steps[0]);
      TurnsKeepAlone(Next(s, steps[0]), steps[1..]);
    }
  }

  /**
   On every run that dispatches a request again only when its earlier dispatches are over:
   each dispatch in its window can be found by a cancel, one cancelled through its marker
   never reaches the worker, and one cancelled on its record has its pump read the cancel.
   */
  lemma OneAtATimeHasNoGap(steps: seq<Step>, id: DispatchId)
    requires ValidRun(START, steps) && OneAtATime(START, steps) && id in Exec(START, steps).dispatches
    ensures var s := Exec(START, steps); var d := s.dispatches[id];
            && (InWindow(d.phase) ==> Findable(s, d.rid))
            && (d.told ==> d.phase.Loading? || d.phase.Failing? || d.phase.Aborted?)
            && (d.noted && (d.phase.Reading? || d.phase.Settling?) ==> d.phase.was)
  {
    TurnsKeepAlone(START, steps);
    var s := Exec(START, steps);
    AloneIsFindable(s);
    assert Kept(s, s.dispatches[id]);
  }

  // --- The flag on a marker ---

  /** A cancel noted on a marker is lost exactly when the request is marked again, or some dispatch of it runs its clear. */
  lemma FlagTakenExactly(s: State, c: Step, rid: RequestId)
    requires CancelledMidDispatch(s.tracker, rid) && Enabled(s, c)
    ensures !CancelledMidDispatch(Next(s, c).tracker, rid)
            <==> (c.Mark? && c.rid == rid) || (c.Clear? && s.dispatches[c.id].rid == rid)
  {
  }

  /** While it is there, no dispatch of the request is promoted, whichever asks. */
  lemma FlaggedIsNotPromoted(s: State, id: DispatchId, rec: Record)
    requires Enabled(s, Promote(id, rec)) && CancelledMidDispatch(s.tracker, s.dispatches[id].rid)
    ensures Next(s, Promote(id, rec)).dispatches[id].phase == Aborted && Next(s, Promote(id, rec)).tracker == s.tracker
  {
  }

  // --- The ledgers ---

  /** A promotion over a record that is still there. */
  predicate Overwrites(s: State, c: Step)
    requires Enabled(s, c)
  {
    c.Promote? && s.dispatches[c.id].rid in s.tracker.records && !CancelledMidDispatch(s.tracker, s.dispatches[c.id].rid)
  }

  /** The ledgers stay the exact sums over the records exactly until a promotion overwrites one. */
  lemma LedgerStaysExactExactly(s: State, c: Step)
    requires LedgerOk(s.tracker) && Enabled(s, c)
    ensures LedgerOk(Next(s, c).tracker) <==> !Overwrites(s, c)
  {
    var t := s.tracker;
    match c
    case Promote(id, rec) =>
      if !CancelledMidDispatch(t, s.dispatches[id].rid) { PromotionIsExactWhenNew(t, s.dispatches[id].rid, rec); }
    case Finish(id) => FinishIsExact(t, s.dispatches[id].rid);
    case CancelByRecord(rid) =>
      if rid in t.records { NotesKeepLedger(t, rid, t.records[rid].(cancelled := true)); }
    case Assign(id, job) =>
      var rid := s.dispatches[id].rid;
      if rid in t.records { NotesKeepLedger(t, rid, t.records[rid].(jobID := job)); }
    case Mark(_, _) => SameRecordsSameLedger(t, Next(s, c).tracker);
    case CancelByMarker(_) => SameRecordsSameLedger(t, Next(s, c).tracker);
    case Clear(_) => SameRecordsSameLedger(t, Next(s, c).tracker);
    case LoadFails(_) =>
    case AssignFails(_) =>
    case ReadFlag(_) =>
    case Conclude(_) =>
  }

  lemma SameRecordsSameLedger(t: Tracker, u: Tracker)
    requires LedgerOk(t)
    requires u.records == t.records && u.seconds == t.seconds && u.reservations == t.reservations
    ensures LedgerOk(u)
  {
    forall q
      ensures Get(u.seconds, q, 0.0) == SecondsOn(u.records, q)
    {
      assert Get(t.seconds, q, 0.0) == SecondsOn(t.records, q);
    }
    forall w | w != ""
      ensures Get(u.reservations, w, 0) as real == ReservedOn(u.records, w)
    {
      assert Get(t.reservations, w, 0) as real == ReservedOn(t.records, w);
    }
  }

  lemma AloneNeverOverwrites(s: State, c: Step)
    requires Alone(s) && Enabled(s, c)
    ensures !Overwrites(s, c)
  {
    if c.Promote? { assert Kept(s, s.dispatches[c.id]); }
  }

  lemma {:induction false} TurnsKeepLedger(s: State, steps: seq<Step>)
    requires Alone(s) && LedgerOk(s.tracker) && ValidRun(s, steps) && OneAtATime(s, steps)
    ensures LedgerOk(Exec(s, steps).tracker)
    decreases |steps|
  {
    if steps != [] {
      AloneNeverOverwrites(s, steps[0]);
      LedgerStaysExactExactly(s, steps[0]);
      TurnKeepsAlone(s, steps[0]);
      TurnsKeepLedger(Next(s, steps[0]), steps[1..]);
    }
  }

  /** On every run that dispatches a request one at a time the ledgers are the exact sums, so an idle tracker owes nothing. */
  lemma LedgerIsExactOneAtATime(steps: seq<Step>)
    requires ValidRun(START, steps) && OneAtATime(START, steps)
    ensures var t := Exec(START, steps).tracker;
            LedgerOk(t) && (t.records == map[] ==> forall q :: Get(t.seconds, q, 0.0) == 0.0)
  {
    TurnsKeepLedger(START, steps);
    var t := Exec(START, steps).tracker;
    forall q | t.records == map[]
      ensures Get(t.seconds, q, 0.0) == 0.0
    {
      EntriesFollowRecords(t, q);
    }
  }
}
