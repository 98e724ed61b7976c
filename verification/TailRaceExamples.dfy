/** Runs of TailRaces' steps that end with everything landed and the tail below a row that waits. */
module TailRaceExamples {
  import opened Wrappers
  import opened FiniteSums
  import opened TailUpdates
  import opened TailRaces

  ghost predicate Reached(t: State) { exists steps :: ValidRun(FRESH, steps) && Exec(FRESH, steps) == t }

  lemma {:induction false} Joined(s: State, steps: seq<Step>, c: Step)
    requires ValidRun(s, steps) && Enabled(Exec(s, steps), c)
    ensures ValidRun(s, steps + [c]) && Exec(s, steps + [c]) == Next(Exec(s, steps), c)
    decreases |steps|
  {
    if steps == [] {
      var n := Next(s, c);
      assert steps + [c] == [c] && [c][1..] == [];
      assert ValidRun(n, []) && Exec(n, []) == n;
    } else {
      Joined(Next(s, steps[0]), steps[1..], c);
      assert (steps + [c])[1..] == steps[1..] + [c];
    }
  }

  /** One more step on from where a run has got to. */
  lemma StepOn(t: State, c: Step)
    requires Reached(t) && Enabled(t, c)
    ensures Reached(Next(t, c))
  {
    var steps :| ValidRun(FRESH, steps) && Exec(FRESH, steps) == t;
    Joined(FRESH, steps, c);
  }

  /** Everything has landed, nothing is being re-estimated, and the tail is short. */
  ghost predicate Short(s: State) { Reached(s) && s.tail.Some? && s.owed == map[] && s.walk.None? && s.tail.value < Waiting(s) }

  const OPENED := FRESH.(tail := Some(0.0))

  lemma OpenedIsReached()
    ensures Reached(OPENED)
  {
    assert ValidRun(FRESH, []) && Exec(FRESH, []) == FRESH;
    StepOn(FRESH, Open);
  }

  /** A row placed and its credit landed. */
  function With(s: State, id: RowId, seconds: real): State
    requires s.tail.Some?
  {
    s.(tail := Some(s.tail.value + seconds), rows := s.rows[id := Row(seconds, false, false)], used := s.used + {id})
  }

  lemma WithIsReached(s: State, id: RowId, seconds: real)
    requires Reached(s) && s.tail.Some? && s.tail.value >= 0.0 && s.owed == map[] && id !in s.used && seconds > 0.0
    ensures Reached(With(s, id, seconds))
  {
    StepOn(s, Arrive(id, 0, seconds, seconds));
    var t := Next(s, Arrive(id, 0, seconds, seconds));
    StepOn(t, Lands(0));
    assert t.owed - {0} == s.owed;
    assert Next(t, Lands(0)) == With(s, id, seconds);
  }

  /** A row started, evicted or stolen and its debit landed. */
  ghost function Took(s: State, c: Step, n: nat): State
    requires n in s.notes && s.tail.Some? && Enabled(s, c)
  {
    Next(s, c).(tail := Some(Max0(s.tail.value - s.notes[n].seconds)), owed := map[])
  }

  lemma TookIsReached(s: State, c: Step, n: nat)
    requires Reached(s) && s.tail.Some? && s.owed == map[] && n in s.notes && Enabled(s, c)
    requires c == Start(n, 0) || c == Evict(n, 0) || c == Steal(n, 0)
    ensures Reached(Took(s, c, n))
  {
    StepOn(s, c);
    var t := Next(s, c);
    StepOn(t, Lands(0));
    assert t.owed - {0} == map[];
    assert s.tail.value + -s.notes[n].seconds == s.tail.value - s.notes[n].seconds;
    assert Next(t, Lands(0)) == Took(s, c, n);
  }

  lemma OneWaits(s: State, id: RowId)
    requires id in s.rows && s.rows.Keys == {id} && !s.rows[id].started
    ensures Waiting(s) == s.rows[id].seconds
  {
    TakeOut(s.rows, Waits(), id);
    assert s.rows - {id} == map[];
  }

  /** A job placed while a re-estimation is on: the new sum has not seen it, and its credit is overwritten. */
  lemma PlacementDuringTheWalkIsForgotten()
    ensures exists s :: Short(s) && s.tail == Some(0.0)
  {
    OpenedIsReached();
    StepOn(OPENED, Look({}));
    var walk := Next(OPENED, Look({}));
    WithIsReached(walk, 0, 5.0);
    var placed := With(walk, 0, 5.0);
    assert placed.walk.value.seen == map[] && placed.walk.value.counted == map[];
    StepOn(placed, Step.Replace);
    var s := Next(placed, Step.Replace);
    OneWaits(s, 0);
    assert Short(s);
  }

  /** Two rows placed, and read since by `notes`. */
  function Two(first: real, second: real, notes: map<nat, Note>): State {
    State(Some(first + second), map[0 := Row(first, false, false), 1 := Row(second, false, false)], {0, 1}, map[], notes, None)
  }

  lemma TwoIsReached(first: real, second: real)
    requires first > 0.0 && second > 0.0
    ensures Reached(Two(first, second, map[]))
  {
    OpenedIsReached();
    WithIsReached(OPENED, 0, first);
    WithIsReached(With(OPENED, 0, first), 1, second);
    assert With(With(OPENED, 0, first), 1, second) == Two(first, second, map[]);
  }

  /** An evict has read the first row, and a steal has moved it. */
  lemma StolenUnderAnEvict()
    ensures Reached(State(Some(5.0), map[1 := Row(5.0, false, false)], {0, 1}, map[], map[0 := Note(ToEvict, 0, 5.0)], None))
  {
    var evict, steal := Note(ToEvict, 0, 5.0), Note(ToSteal, 0, 5.0);
    TwoIsReached(5.0, 5.0);
    StepOn(Two(5.0, 5.0, map[]), Peek(0, 0, ToEvict));
    assert Next(Two(5.0, 5.0, map[]), Peek(0, 0, ToEvict)) == Two(5.0, 5.0, map[0 := evict]);
    StepOn(Two(5.0, 5.0, map[0 := evict]), Peek(1, 0, ToSteal));
    var both := Two(5.0, 5.0, map[0 := evict, 1 := steal]);
    assert Next(Two(5.0, 5.0, map[0 := evict]), Peek(1, 0, ToSteal)) == both;
    TookIsReached(both, Steal(1, 0), 1);
    assert both.rows - {0} == map[1 := Row(5.0, false, false)];
    assert both.notes - {1} == map[0 := evict];
  }

  /** An evict reads a row, a steal moves it, and the evict deletes nothing and debits the queue again. */
  lemma StaleEvictDebitsTwice()
    ensures exists s :: Short(s) && s.tail == Some(0.0)
  {
    StolenUnderAnEvict();
    var stolen := State(Some(5.0), map[1 := Row(5.0, false, false)], {0, 1}, map[], map[0 := Note(ToEvict, 0, 5.0)], None);
    TookIsReached(stolen, Evict(0, 0), 0);
    var s := Took(stolen, Evict(0, 0), 0);
    OneWaits(s, 1);
    assert Short(s);
  }

  /** A row was leased, its worker dropped and the queue was drained and torn down; the worker is back, the dispatch still loading. */
  lemma BackWithALoadingDispatch()
    ensures Reached(State(Some(0.0), map[], {0}, map[], map[0 := Note(ToStart, 0, 5.0)], None))
  {
    OpenedIsReached();
    WithIsReached(OPENED, 0, 5.0);
    var one := With(OPENED, 0, 5.0);
    StepOn(one, Lease(0, 0));
    var leased := Next(one, Lease(0, 0));
    StepOn(leased, Remove(0));
    var drained := Next(leased, Remove(0));
    assert drained.rows == map[];
    StepOn(drained, Close);
    StepOn(Next(drained, Close), Open);
  }

  /** When its load is done it debits the new tail for a row the old one held. */
  lemma LateStartDebitsTheNewTail()
    ensures exists s :: Short(s) && s.tail == Some(0.0)
  {
    BackWithALoadingDispatch();
    var back := State(Some(0.0), map[], {0}, map[], map[0 := Note(ToStart, 0, 5.0)], None);
    WithIsReached(back, 1, 5.0);
    var again := With(back, 1, 5.0);
    TookIsReached(again, Start(0, 0), 0);
    var s := Took(again, Start(0, 0), 0);
    assert s.rows == map[1 := Row(5.0, false, false)];
    OneWaits(s, 1);
    assert Short(s);
  }

  /** A placement that lands after its queue was torn down: the row is there when the worker comes back, its credit is not. */
  lemma CreditAfterTheCloseIsLost()
    ensures exists s :: Short(s) && s.tail == Some(0.0)
  {
    OpenedIsReached();
    StepOn(OPENED, Arrive(0, 0, 5.0, 5.0));
    var placed := Next(OPENED, Arrive(0, 0, 5.0, 5.0));
    StepOn(placed, Close);
    var closed := Next(placed, Close);
    StepOn(closed, Lands(0));
    var lost := Next(closed, Lands(0));
    assert lost.owed == map[];
    StepOn(lost, Open);
    var s := Next(lost, Open);
    OneWaits(s, 0);
    assert Short(s);
  }

  /** Two rows on the queue, of which a dispatch leases the first after the re-estimation saw both waiting. */
  lemma LeasedDuringTheWalk()
    ensures Reached(State(Some(6.0), map[0 := Row(5.0, true, false), 1 := Row(1.0, false, false)], {0, 1}, map[],
                          map[0 := Note(ToStart, 0, 5.0)],
                          Some(Walk(map[0 := Row(5.0, false, false), 1 := Row(1.0, false, false)], map[]))))
  {
    var rows := map[0 := Row(5.0, false, false), 1 := Row(1.0, false, false)];
    TwoIsReached(5.0, 1.0);
    StepOn(Two(5.0, 1.0, map[]), Look({0, 1}));
    var looked := Two(5.0, 1.0, map[]).(walk := Some(Walk(rows, map[])));
    assert SeenOf(rows, {0, 1}) == rows;
    assert Next(Two(5.0, 1.0, map[]), Look({0, 1})) == looked;
    StepOn(looked, Lease(0, 0));
    assert rows[0 := Row(5.0, true, false)] == map[0 := Row(5.0, true, false), 1 := Row(1.0, false, false)];
  }

  /** Both are priced at one second, but the dispatch debits the five it read, and the second row's second goes with them. */
  lemma OldPriceIsDebited()
    ensures exists s :: Short(s) && s.tail == Some(0.0)
  {
    LeasedDuringTheWalk();
    var note := map[0 := Note(ToStart, 0, 5.0)];
    var seen := map[0 := Row(5.0, false, false), 1 := Row(1.0, false, false)];
    var rows := map[0 := Row(5.0, true, false), 1 := Row(1.0, false, false)];
    var a := State(Some(6.0), rows, {0, 1}, map[], note, Some(Walk(seen, map[])));
    StepOn(a, Price(0, 1.0));
    var b := Next(a, Price(0, 1.0));
    StepOn(b, Price(1, 1.0));
    var c := Next(b, Price(1, 1.0));
    assert c.walk.value.counted == map[0 := 1.0, 1 := 1.0];
    TwoSeconds();
    StepOn(c, Step.Replace);
    var d := Next(c, Step.Replace);
    assert d.tail == Some(2.0);
    TookIsReached(d, Start(0, 0), 0);
    var s := Took(d, Start(0, 0), 0);
    assert s.rows == map[0 := Row(1.0, true, true), 1 := Row(1.0, false, false)];
    OneOfTwoWaits(s.rows);
    assert Short(s);
  }

  lemma TwoSeconds()
    ensures Total(map[0 := 1.0, 1 := 1.0]) == 2.0
  {
    var m: map<nat, real> := map[0 := 1.0, 1 := 1.0];
    TakeOut(m, Itself(), 0);
    TakeOut(m - {0}, Itself(), 1);
    assert m - {0} - {1} == map[];
  }

  lemma OneOfTwoWaits(rows: map<RowId, Row>)
    requires rows == map[0 := Row(1.0, true, true), 1 := Row(1.0, false, false)]
    ensures Sum(rows, Waits()) == 1.0
  {
    TakeOut(rows, Waits(), 0);
    TakeOut(rows - {0}, Waits(), 1);
    assert rows - {0} - {1} == map[];
  }
}
