/**
 One worker queue and one copy of its tail, with every credit, debit, re-estimation and
 drain taken apart into the moves that other goroutines can come between. A row's move
 comes first and the tail update that goes with it lands later, if at all; what is
 debited is what was read from the row before, whatever has become of it since.
 */
module TailRaces {
  import opened Wrappers
  import opened FiniteSums
  import opened TailUpdates
  import TailLedger

  type RowId = TailLedger.RowId

  datatype Row = Row(seconds: real, leased: bool, started: bool)

  datatype Why = ToStart | ToEvict | ToSteal

  /** A row as read by a dispatch, an operator's evict or a steal, which will debit these seconds. */
  datatype Note = Note(why: Why, row: RowId, seconds: real)

  /** The rows a re-estimation saw, and the seconds it has counted for those it has come to. */
  datatype Walk = Walk(seen: map<RowId, Row>, counted: map<RowId, real>)

  /** No tail is a queue that was torn down; `owed` holds the updates that have not landed. */
  datatype State = State(
    tail: Option<real>, rows: map<RowId, Row>, used: set<RowId>,
    owed: map<nat, real>, notes: map<nat, Note>, walk: Option<Walk>)

  const FRESH := State(None, map[], {}, map[], map[], None)

  datatype Step =
    | Open
    | Close                                                        // after the drain of a disconnected worker's queue
    | Arrive(id: RowId, u: nat, seconds: real, credited: real)     // a placement credits what it wrote; a steal what it read
    | Lands(u: nat)
    | Peek(n: nat, id: RowId, why: Why)
    | Lease(n: nat, id: RowId)
    | Unlease(id: RowId)                                           // a bounce, or a lapsed lease
    | Start(n: nat, u: nat)
    | Evict(n: nat, u: nat)                                        // deletes the row unguarded and debits
    | Steal(n: nat, u: nat)                                        // moves the row only while it can be leased
    | Abandon(n: nat)
    | Remove(id: RowId)                                            // cancel, load failure, drain, stream end: no debit
    | Look(seen: set<RowId>)
    | Price(id: RowId, seconds: real)
    | Replace
    | Crash                                                        // what has not landed never will

  predicate Enabled(s: State, c: Step) {
    match c
    case Open => true
    case Close => s.tail.Some?
    case Arrive(id, u, seconds, credited) => id !in s.used && u !in s.owed && seconds >= 0.0 && credited >= 0.0
    case Lands(u) => u in s.owed
    case Peek(n, id, why) => n !in s.notes && id in s.rows && !s.rows[id].leased && !why.ToStart?
    case Lease(n, id) => n !in s.notes && id in s.rows && !s.rows[id].leased
    case Unlease(id) => id in s.rows
    case Start(n, u) => n in s.notes && s.notes[n].why.ToStart? && u !in s.owed
    case Evict(n, u) => n in s.notes && s.notes[n].why.ToEvict? && u !in s.owed
    case Steal(n, u) => n in s.notes && s.notes[n].why.ToSteal? && u !in s.owed && s.notes[n].row in s.rows && !s.rows[s.notes[n].row].leased
    case Abandon(n) => n in s.notes
    case Remove(id) => id in s.rows
    case Look(seen) => s.walk.None? && seen <= s.rows.Keys && (seen == s.rows.Keys || |seen| == TailLedger.PEEK_ALL_LIMIT)
    case Price(id, seconds) => s.walk.Some? && id in s.walk.value.seen && id !in s.walk.value.counted && seconds >= 0.0
    case Replace => s.walk.Some? && s.walk.value.counted.Keys == s.walk.value.seen.Keys
    case Crash => true
  }

  function SeenOf(rows: map<RowId, Row>, seen: set<RowId>): map<RowId, Row> {
    map id | id in seen && id in rows :: rows[id]
  }

  function Debited(s: State, n: nat, u: nat): State
    requires n in s.notes
  {
    s.(notes := s.notes - {n}, owed := s.owed[u := -s.notes[n].seconds])
  }

  ghost function Next(s: State, c: Step): State
    requires Enabled(s, c)
  {
    match c
    case Open => s.(tail := Some(s.tail.GetOr(0.0)))
    case Close => s.(tail := None)
    case Arrive(id, u, seconds, credited) =>
      s.(rows := s.rows[id := Row(seconds, false, false)], used := s.used + {id}, owed := s.owed[u := credited])
    case Lands(u) =>
      s.(owed := s.owed - {u}, tail := if s.tail.Some? then Some(Max0(s.tail.value + s.owed[u])) else None)
    case Peek(n, id, why) => s.(notes := s.notes[n := Note(why, id, s.rows[id].seconds)])
    case Lease(n, id) => s.(rows := s.rows[id := s.rows[id].(leased := true)], notes := s.notes[n := Note(ToStart, id, s.rows[id].seconds)])
    case Unlease(id) => s.(rows := s.rows[id := s.rows[id].(leased := false)])
    case Start(n, u) =>
      var id := s.notes[n].row;
      Debited(s, n, u).(rows := if id in s.rows then s.rows[id := s.rows[id].(started := true)] else s.rows)
    case Evict(n, u) => Debited(s, n, u).(rows := s.rows - {s.notes[n].row})
    case Steal(n, u) => Debited(s, n, u).(rows := s.rows - {s.notes[n].row})
    case Abandon(n) => s.(notes := s.notes - {n})
    case Remove(id) => s.(rows := s.rows - {id})
    case Look(seen) => s.(walk := Some(Walk(SeenOf(s.rows, seen), map[])))
    case Price(id, seconds) => Priced(s, id, seconds)
    case Replace => s.(tail := if s.tail.Some? then Some(Max0(Total(s.walk.value.counted))) else None, walk := None)
    case Crash => s.(owed := map[], notes := map[], walk := None)
  }

  /** A row seen leased is counted as it was; any other is rewritten, where it still is, and counted at its new price. */
  function Priced(s: State, id: RowId, seconds: real): State
    requires Enabled(s, Price(id, seconds))
  {
    var w := s.walk.value;
    if w.seen[id].leased then s.(walk := Some(w.(counted := w.counted[id := w.seen[id].seconds])))
    else s.(rows := if id in s.rows then s.rows[id := s.rows[id].(seconds := seconds)] else s.rows,
            walk := Some(w.(counted := w.counted[id := seconds])))
  }

  ghost predicate ValidRun(s: State, steps: seq<Step>)
    decreases |steps|
  {
    steps == [] || (Enabled(s, steps[0]) && ValidRun(Next(s, steps[0]), steps[1..]))
  }

  ghost function Exec(s: State, steps: seq<Step>): State
    requires ValidRun(s, steps)
    decreases |steps|
  {
    if steps == [] then s else Exec(Next(s, steps[0]), steps[1..])
  }

  // --- The account ---

  function Itself(): (nat, real) -> real { (_: nat, x: real) => x }

  function Waits(): (RowId, Row) -> real { (_: RowId, r: Row) => if r.started then 0.0 else r.seconds }

  ghost function Total(m: map<nat, real>): real { Sum(m, Itself()) }

  /** The queued seconds of the rows that have not started. */
  ghost function Waiting(s: State): real { Sum(s.rows, Waits()) }

  /** What the tail, with all that is still to land, has over the waiting rows. */
  ghost function Slack(s: State): real { s.tail.GetOr(0.0) + Total(s.owed) - Waiting(s) }

  /** What one row still adds to the waiting seconds. */
  function WaitsAt(s: State, id: RowId): real { if id in s.rows && !s.rows[id].started then s.rows[id].seconds else 0.0 }

  /** What a step adds to the slack. */
  ghost function Gain(s: State, c: Step): real
    requires Enabled(s, c)
  {
    match c
    case Arrive(_, _, seconds, credited) => credited - seconds
    case Lands(u) => if s.tail.None? then -s.owed[u] else Max0(s.tail.value + s.owed[u]) - (s.tail.value + s.owed[u])
    case Start(n, _) => WaitsAt(s, s.notes[n].row) - s.notes[n].seconds
    case Evict(n, _) => WaitsAt(s, s.notes[n].row) - s.notes[n].seconds
    case Steal(n, _) => WaitsAt(s, s.notes[n].row) - s.notes[n].seconds
    case Remove(id) => WaitsAt(s, id)
    case Close => -s.tail.value
    case Price(id, seconds) =>
      if s.walk.value.seen[id].leased || id !in s.rows || s.rows[id].started then 0.0 else s.rows[id].seconds - seconds
    case Replace => if s.tail.Some? then Total(s.walk.value.counted) - s.tail.value else 0.0
    case Crash => -Total(s.owed)
    case _ => 0.0
  }

  ghost function Gains(s: State, steps: seq<Step>): real
    requires ValidRun(s, steps)
    decreases |steps|
  {
    if steps == [] then 0.0 else Gain(s, steps[0]) + Gains(Next(s, steps[0]), steps[1..])
  }

  // --- The invariant ---

  predicate WalkOk(s: State, w: Walk) {
    && w.counted.Keys <= w.seen.Keys <= s.used
    && (forall id :: id in w.seen ==> w.seen[id].seconds >= 0.0)
    && (forall id :: id in w.counted ==> w.counted[id] >= 0.0)
    && (forall id :: id in w.seen && id in s.rows ==> s.rows[id].seconds == if id in w.counted then w.counted[id] else w.seen[id].seconds)
  }

  predicate Inv(s: State) {
    && (s.tail.Some? ==> s.tail.value >= 0.0)
    && s.rows.Keys <= s.used
    && (forall id :: id in s.rows ==> s.rows[id].seconds >= 0.0)
    && (s.walk.Some? ==> WalkOk(s, s.walk.value))
  }

  lemma {:induction false} TotalNotNegative(m: map<nat, real>)
    requires forall k :: k in m ==> m[k] >= 0.0
    ensures Total(m) >= 0.0
  {
    ZeroOrAbove(m, Itself(), 0.0);
  }

  lemma PriceKeeps(s: State, id: RowId, seconds: real)
    requires Inv(s) && Enabled(s, Price(id, seconds))
    ensures Inv(Priced(s, id, seconds))
  {
  }

  lemma DebitKeeps(s: State, c: Step)
    requires Inv(s) && Enabled(s, c) && (c.Start? || c.Evict? || c.Steal?)
    ensures Inv(Next(s, c))
  {
  }

  lemma StepKeeps(s: State, c: Step)
    requires Inv(s) && Enabled(s, c)
    ensures Inv(Next(s, c))
  {
    match c
    case Start(_, _) => DebitKeeps(s, c);
    case Evict(_, _) => DebitKeeps(s, c);
    case Steal(_, _) => DebitKeeps(s, c);
    case Price(id, seconds) => PriceKeeps(s, id, seconds);
    case Replace => TotalNotNegative(s.walk.value.counted);
    case _ =>
  }

  // --- Every step moves the slack by its gain ---

  lemma RowLeaves(s: State, id: RowId)
    ensures Sum(s.rows - {id}, Waits()) == Waiting(s) - WaitsAt(s, id)
  {
    if id in s.rows {
      TakeOut(s.rows, Waits(), id);
    } else {
      assert s.rows - {id} == s.rows;
    }
  }

  lemma RowChanges(s: State, id: RowId, r: Row)
    requires id in s.rows
    ensures Sum(s.rows[id := r], Waits()) == Waiting(s) - WaitsAt(s, id) + if r.started then 0.0 else r.seconds
  {
    FiniteSums.Replace(s.rows, Waits(), id, r);
  }

  lemma DebitIsOwed(s: State, n: nat, u: nat)
    requires n in s.notes && u !in s.owed
    ensures Total(Debited(s, n, u).owed) == Total(s.owed) - s.notes[n].seconds
  {
    PutIn(s.owed, Itself(), u, -s.notes[n].seconds);
  }

  lemma DebitMovesExactly(s: State, c: Step)
    requires Enabled(s, c) && (c.Start? || c.Evict? || c.Steal?)
    ensures Slack(Next(s, c)) == Slack(s) + Gain(s, c)
  {
    DebitIsOwed(s, c.n, c.u);
    var id := s.notes[c.n].row;
    RowLeaves(s, id);
    if c.Start? && id in s.rows {
      RowChanges(s, id, s.rows[id].(started := true));
    }
  }

  lemma PriceMovesExactly(s: State, id: RowId, seconds: real)
    requires Enabled(s, Price(id, seconds))
    ensures Slack(Priced(s, id, seconds)) == Slack(s) + Gain(s, Price(id, seconds))
  {
    if id in s.rows {
      RowChanges(s, id, s.rows[id].(seconds := seconds));
    }
  }

  lemma SlackMovesExactly(s: State, c: Step)
    requires Inv(s) && Enabled(s, c)
    ensures Slack(Next(s, c)) == Slack(s) + Gain(s, c)
  {
    match c
    case Arrive(id, u, seconds, credited) =>
      PutIn(s.rows, Waits(), id, Row(seconds, false, false));
      PutIn(s.owed, Itself(), u, credited);
    case Lands(u) => TakeOut(s.owed, Itself(), u);
    case Lease(_, id) => RowChanges(s, id, s.rows[id].(leased := true));
    case Unlease(id) => RowChanges(s, id, s.rows[id].(leased := false));
    case Start(_, _) => DebitMovesExactly(s, c);
    case Evict(_, _) => DebitMovesExactly(s, c);
    case Steal(_, _) => DebitMovesExactly(s, c);
    case Remove(id) => RowLeaves(s, id);
    case Price(id, seconds) => PriceMovesExactly(s, id, seconds);
    case Replace => TotalNotNegative(s.walk.value.counted);
    case _ =>
  }

  lemma {:induction false} RunKeeps(s: State, steps: seq<Step>)
    requires Inv(s) && ValidRun(s, steps)
    ensures Inv(Exec(s, steps)) && Slack(Exec(s, steps)) == Slack(s) + Gains(s, steps)
    decreases |steps|
  {
    if steps != [] {
      StepKeeps(s, steps[0]);
      SlackMovesExactly(s, steps[0]);
      RunKeeps(Next(s, steps[0]), steps[1..]);
    }
  }

  /** With everything landed, the tail is below the waiting rows exactly when the run's gains come to less than nothing. */
  lemma BelowExactly(steps: seq<Step>)
    requires ValidRun(FRESH, steps)
    ensures var s := Exec(FRESH, steps);
            s.tail.Some? && s.owed == map[] ==> (s.tail.value < Waiting(s) <==> Gains(FRESH, steps) < 0.0)
  {
    RunKeeps(FRESH, steps);
  }

  // --- What a re-estimation leaves ---

  /** Counted seconds of rows that have started or left since. */
  function GoneOf(rows: map<RowId, Row>): (RowId, real) -> real {
    (id: RowId, x: real) => if id in rows && !rows[id].started then 0.0 else x
  }

  /** Waiting seconds of rows that were not counted. */
  function NewOf(counted: map<RowId, real>): (RowId, Row) -> real {
    (id: RowId, r: Row) => if r.started || id in counted then 0.0 else r.seconds
  }

  ghost function Gone(s: State): real
    requires s.walk.Some?
  {
    Sum(s.walk.value.counted, GoneOf(s.rows))
  }

  ghost function Missed(s: State): real
    requires s.walk.Some?
  {
    Sum(s.rows, NewOf(s.walk.value.counted))
  }

  lemma SameSum(rows: map<RowId, Row>, f: (RowId, Row) -> real, g: (RowId, Row) -> real)
    requires forall id :: id in rows ==> f(id, rows[id]) == g(id, rows[id])
    ensures Sum(rows, f) == Sum(rows, g)
  {
    AtMost(rows, rows, f, g);
    AtMost(rows, rows, g, f);
  }

  /** Counting one row more takes its waiting seconds off what is missed. */
  lemma CountedOneMore(rows: map<RowId, Row>, counted: map<RowId, real>, id: RowId)
    requires id in counted && (id in rows ==> rows[id].seconds == counted[id])
    ensures Sum(rows, NewOf(counted)) == Sum(rows, NewOf(counted - {id})) - (counted[id] - GoneOf(rows)(id, counted[id]))
  {
    if id in rows {
      TakeOut(rows, NewOf(counted), id);
      TakeOut(rows, NewOf(counted - {id}), id);
      SameSum(rows - {id}, NewOf(counted), NewOf(counted - {id}));
    } else {
      SameSum(rows, NewOf(counted), NewOf(counted - {id}));
    }
  }

  lemma {:induction false} CountedAgainstWaiting(rows: map<RowId, Row>, counted: map<RowId, real>)
    requires forall id :: id in counted && id in rows ==> rows[id].seconds == counted[id]
    ensures Total(counted) - Sum(counted, GoneOf(rows)) == Sum(rows, Waits()) - Sum(rows, NewOf(counted))
    decreases |counted|
  {
    if counted == map[] {
      SameSum(rows, Waits(), NewOf(counted));
    } else {
      var id :| id in counted;
      var rest := counted - {id};
      CountedAgainstWaiting(rows, rest);
      TakeOut(counted, Itself(), id);
      TakeOut(counted, GoneOf(rows), id);
      CountedOneMore(rows, counted, id);
    }
  }

  /**
   The replaced tail is over the waiting rows by the counted rows that left or started while the walk was on and under
   them by the rows it did not count; updates that landed before are forgotten, those still to land come on top.
   */
  lemma ReplaceLeavesExactly(s: State)
    requires Inv(s) && Enabled(s, Step.Replace) && s.tail.Some?
    ensures Slack(Next(s, Step.Replace)) == Gone(s) - Missed(s) + Total(s.owed)
  {
    CountedAgainstWaiting(s.rows, s.walk.value.counted);
    TotalNotNegative(s.walk.value.counted);
  }

  /** A row the walk comes to is counted once, leased ones as seen and others at the price they then have; nothing else moves. */
  lemma PriceCountsExactly(s: State, id: RowId, seconds: real)
    requires Enabled(s, Price(id, seconds))
    ensures var n := Next(s, Price(id, seconds));
            var w := s.walk.value;
            && n.walk == Some(Walk(w.seen, w.counted[id := if w.seen[id].leased then w.seen[id].seconds else seconds]))
            && n.rows.Keys == s.rows.Keys && (forall x :: x in s.rows && x != id ==> n.rows[x] == s.rows[x])
            && (id in s.rows ==> n.rows[id] == if w.seen[id].leased then s.rows[id] else s.rows[id].(seconds := seconds))
            && n.tail == s.tail && n.owed == s.owed && n.notes == s.notes
  {
  }

  /** A crash leaves the rows and the persisted tail, and nothing that was still to be done. */
  lemma CrashForgets(s: State)
    ensures Next(s, Crash) == State(s.tail, s.rows, s.used, map[], map[], None)
  {
  }

  // --- When the tail falls below ---

  /** While a re-estimation is on the rows are priced one by one, and only its end says where the tail stands. */
  ghost predicate Covered(s: State) { s.walk.Some? || Slack(s) >= 0.0 }

  /** What a step must not do. */
  ghost predicate FallsBelow(s: State, c: Step)
    requires Enabled(s, c)
  {
    match c
    case Look(_) => false
    case Replace => if s.tail.Some? then Gone(s) + Total(s.owed) < Missed(s) else Total(s.owed) < Waiting(s)
    case Crash => s.tail.GetOr(0.0) < Waiting(s)
    case _ => s.walk.None? && Slack(s) + Gain(s, c) < 0.0
  }

  lemma StepKeepsCoverExactly(s: State, c: Step)
    requires Inv(s) && Covered(s) && Enabled(s, c)
    ensures Covered(Next(s, c)) <==> !FallsBelow(s, c)
  {
    SlackMovesExactly(s, c);
    if c.Replace? && s.tail.Some? {
      ReplaceLeavesExactly(s);
    }
  }

  /** Steps that cannot make the tail fall below, told from the rows and the updates. */
  ghost predicate Calm(s: State, c: Step)
    requires Enabled(s, c)
  {
    match c
    case Arrive(_, _, seconds, credited) => credited >= seconds
    case Lands(u) => s.tail.Some? || s.owed[u] <= 0.0
    case Start(n, _) => Fresh(s, s.notes[n])
    case Evict(n, _) => Fresh(s, s.notes[n])
    case Steal(n, _) => Fresh(s, s.notes[n])
    case Close => Waiting(s) <= Total(s.owed)
    case Price(_, _) => true
    case Replace => if s.tail.Some? then Missed(s) <= Gone(s) + Total(s.owed) else Waiting(s) <= Total(s.owed)
    case Crash => Waiting(s) <= s.tail.GetOr(0.0)
    case _ => true
  }

  /** The row read still waits, at no less than was read. */
  predicate Fresh(s: State, note: Note) { note.seconds <= WaitsAt(s, note.row) }

  lemma CalmStepsKeepCover(s: State, c: Step)
    requires Inv(s) && Covered(s) && Enabled(s, c) && Calm(s, c)
    ensures Covered(Next(s, c))
  {
    StepKeepsCoverExactly(s, c);
  }

  lemma {:induction false} CalmRunKeeps(s: State, steps: seq<Step>)
    requires Inv(s) && Covered(s) && ValidRun(s, steps) && CalmRun(s, steps)
    ensures Covered(Exec(s, steps))
    decreases |steps|
  {
    if steps != [] {
      CalmStepsKeepCover(s, steps[0]);
      StepKeeps(s, steps[0]);
      CalmRunKeeps(Next(s, steps[0]), steps[1..]);
    }
  }

  ghost predicate CalmRun(s: State, steps: seq<Step>)
    requires ValidRun(s, steps)
    decreases |steps|
  {
    steps == [] || (Calm(s, steps[0]) && CalmRun(Next(s, steps[0]), steps[1..]))
  }

  /** On a run of calm steps the tail, once everything has landed and no re-estimation is on, is not below the waiting rows. */
  lemma CalmRunsAreCovered(steps: seq<Step>)
    requires ValidRun(FRESH, steps) && CalmRun(FRESH, steps)
    ensures var s := Exec(FRESH, steps);
            s.tail.Some? && s.owed == map[] && s.walk.None? ==> s.tail.value >= Waiting(s)
  {
    CalmRunKeeps(FRESH, steps);
  }

  /** What makes a row's debit take more than the row still adds. */
  predicate Spoils(s: State, c: Step, note: Note)
    requires Enabled(s, c)
  {
    match c
    case Start(m, _) => s.notes[m].row == note.row
    case Evict(m, _) => s.notes[m].row == note.row
    case Steal(m, _) => s.notes[m].row == note.row
    case Remove(id) => id == note.row
    case Price(id, seconds) => id == note.row && !s.walk.value.seen[id].leased && seconds < note.seconds
    case _ => false
  }

  /** A note goes bad exactly when someone else starts, moves or removes its row, or a re-estimation that saw it unleased prices it lower. */
  lemma NoteGoesBadExactly(s: State, c: Step, note: Note)
    requires Inv(s) && Enabled(s, c) && Fresh(s, note) && note.seconds > 0.0
    ensures Fresh(Next(s, c), note) <==> !Spoils(s, c, note)
  {
  }

  ghost predicate Unspoilt(s: State, steps: seq<Step>, note: Note)
    requires ValidRun(s, steps)
    decreases |steps|
  {
    steps == [] || (!Spoils(s, steps[0], note) && Unspoilt(Next(s, steps[0]), steps[1..], note))
  }

  /** So a row read while it waits can be debited at any time until then. */
  lemma {:induction false} UnspoiltNotesHold(s: State, steps: seq<Step>, note: Note)
    requires Inv(s) && ValidRun(s, steps) && Fresh(s, note) && note.seconds > 0.0 && Unspoilt(s, steps, note)
    ensures Fresh(Exec(s, steps), note)
    decreases |steps|
  {
    if steps != [] {
      NoteGoesBadExactly(s, steps[0], note);
      StepKeeps(s, steps[0]);
      UnspoiltNotesHold(Next(s, steps[0]), steps[1..], note);
    }
  }
}
