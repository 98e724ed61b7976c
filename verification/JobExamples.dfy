/** One job, one worker: the concrete states and runs the counterexamples start from. */
module JobExamples {
  import opened EnvelopeCodec
  import opened JobProtocol
  import opened LeaseQueue
  import opened ResultStore

  // --- Short runs ---

  lemma RunOfTwo(s: State, a: Step, b: Step)
    requires Enabled(s, a) && Enabled(Next(s, a), b)
    ensures ValidRun(s, [a, b]) && Exec(s, [a, b]) == Next(Next(s, a), b)
  {
    assert [b] + [] == [b] && [a] + [b] == [a, b];
    Prepend(Next(s, a), b, []);
    Prepend(s, a, [b]);
  }

  lemma RunOfThree(s: State, a: Step, b: Step, c: Step)
    requires Enabled(s, a) && Enabled(Next(s, a), b) && Enabled(Next(Next(s, a), b), c)
    ensures ValidRun(s, [a, b, c]) && Exec(s, [a, b, c]) == Next(Next(Next(s, a), b), c)
  {
    assert [a] + [b, c] == [a, b, c];
    RunOfTwo(Next(s, a), b, c);
    Prepend(s, a, [b, c]);
  }

  lemma RunOfFour(s: State, a: Step, b: Step, c: Step, d: Step)
    requires Enabled(s, a) && Enabled(Next(s, a), b) && Enabled(Next(Next(s, a), b), c)
    requires Enabled(Next(Next(Next(s, a), b), c), d)
    ensures ValidRun(s, [a, b, c, d]) && Exec(s, [a, b, c, d]) == Next(Next(Next(Next(s, a), b), c), d)
  {
    assert [a] + [b, c, d] == [a, b, c, d];
    RunOfThree(Next(s, a), b, c, d);
    Prepend(s, a, [b, c, d]);
  }

  // --- The job ---

  const JOB: RequestId := [1]
  const HOST: WorkerId := [2]
  const PEER: WorkerId := [9]
  const G1: MsgId := [3]
  const W1: MsgId := [4]
  const G2: MsgId := [5]
  const G3: MsgId := [6]
  const W2: MsgId := [7]

  function JobEnv(attempts: Byte): Envelope {
    Envelope(0, attempts, 0, 0, 0, [], [], [], JOB, [], [], [])
  }

  const ENV := JobEnv(0)

  function Submitted(loadAttempts: nat): State {
    Submit(Init(loadAttempts), ENV, G1, 0)
  }

  /** On the worker's queue, not yet leased. */
  function Placed(loadAttempts: nat): State
    ensures var s := Placed(loadAttempts);
            && s.rows == map[G1 := Row(Global, Decoded(ENV), 0, 0, 10, 1),
                             W1 := Row(Worker(HOST), Decoded(ENV.(globalMsgID := G1)), 0, 0, 0, 0)]
            && s.tasks == map[] && s.used == {G1, W1} && s.buffered == {JOB} && JOB in s.results && s.results[JOB].status == Pending
            && s.inflight == map[] && s.resubmits == map[JOB := 0] && s.decided == {} && s.loadAttempts == loadAttempts
  {
    Place(Submitted(loadAttempts), G1, HOST, 0, W1, 10, 0)
  }

  /** Leased, its model load running. */
  function Dispatched(loadAttempts: nat): State
    ensures var s := Dispatched(loadAttempts);
            && s.rows == map[G1 := Row(Global, Decoded(ENV), 0, 0, 10, 1),
                             W1 := Row(Worker(HOST), Decoded(ENV.(globalMsgID := G1)), 0, 0, 10, 1)]
            && s.tasks == map[0 := Loading(W1, HOST, ENV.(globalMsgID := G1))]
            && s.used == {G1, W1} && JOB in s.results && s.results[JOB].status == Pending && JOB in s.buffered
            && s.inflight == map[] && s.resubmits == map[JOB := 0] && s.decided == {} && s.loadAttempts == loadAttempts
  {
    Lease(Placed(loadAttempts), W1, HOST, 0, 10, 0)
  }

  lemma DispatchedIsReachable(loadAttempts: nat)
    ensures var steps := [DoSubmit(ENV, G1, 0), DoPlace(G1, HOST, 0, W1, 10, 0), DoLease(W1, HOST, 0, 10, 0)];
            ValidRun(Init(loadAttempts), steps) && Exec(Init(loadAttempts), steps) == Dispatched(loadAttempts)
  {
    var s0, a, b, c := Init(loadAttempts), DoSubmit(ENV, G1, 0), DoPlace(G1, HOST, 0, W1, 10, 0), DoLease(W1, HOST, 0, 10, 0);
    assert Next(s0, a) == Submitted(loadAttempts);
    assert Next(Submitted(loadAttempts), b) == Placed(loadAttempts);
    assert Enabled(Placed(loadAttempts), c);
    RunOfThree(s0, a, b, c);
  }

  /** The worker disconnects during the load: the rows are gone, the resubmission is pending. */
  function Drained(loadAttempts: nat): State {
    Dispatched(loadAttempts).(
      rows := map[], tasks := map[0 := Loading(W1, HOST, ENV.(globalMsgID := G1)), 1 := Resubmit(JobEnv(1), true)])
  }

  /** ...and it goes through. */
  function DrainedAndResubmitted(loadAttempts: nat): State {
    Dispatched(loadAttempts).(
      rows := map[G2 := Row(Global, Decoded(JobEnv(1)), 0, 0, 0, 0)], used := {G1, W1, G2}, resubmits := map[JOB := 1])
  }

  lemma DrainEmpties(loadAttempts: nat)
    ensures var s, a := Dispatched(loadAttempts), DoDrain(W1, HOST, true, 1, 0);
            Enabled(s, a) && Next(s, a) == Drained(loadAttempts)
  {
    var s := Dispatched(loadAttempts);
    assert DrainDecision(s, s.rows[W1], true, 0) == DrainAction.Retry;
    var n := Drain(s, W1, HOST, true, 1, 0);
    assert n.rows == map[];
    assert n.tasks == Drained(loadAttempts).tasks;
  }

  lemma DrainResubmits(loadAttempts: nat)
    ensures var s, a := Drained(loadAttempts), DoAdvance(1, G2, 0);
            Enabled(s, a) && Next(s, a) == DrainedAndResubmitted(loadAttempts)
  {
    var n := Advance(Drained(loadAttempts), 1, G2, 0);
    assert n.rows == DrainedAndResubmitted(loadAttempts).rows;
    assert n.tasks == DrainedAndResubmitted(loadAttempts).tasks;
    assert n.results == Dispatched(loadAttempts).results;
    assert n.used == {G1, W1, G2} && n.resubmits == map[JOB := 1];
  }
}
