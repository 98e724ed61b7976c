/**
 The per-job replay buffer: one producer appends, the oldest chunks go when the
 byte cap is exceeded, and any number of consumers replay and follow.
 */
module ReplayBuffer {
  import opened EnvelopeCodec
  import opened Wrappers

  /** 10 MiB. */
  const MAX_BYTES: nat := 10 * 1024 * 1024

  datatype Kind = Data | Completed | Error

  datatype Chunk = Chunk(kind: Kind, chunk: Bytes, final: Bytes, errText: string, note: string)

  datatype SequencedChunk = SequencedChunk(seqNo: nat, chunk: Chunk)

  function ChunkSize(c: Chunk): nat { |c.chunk| + |c.final| + |c.errText| + |c.note| }

  predicate IsTerminal(c: Chunk) { c.kind.Completed? || c.kind.Error? }

  function Total(cs: seq<Chunk>): nat {
    if cs == [] then 0 else ChunkSize(cs[0]) + Total(cs[1..])
  }

  lemma {:induction false} TotalOfAppend(cs: seq<Chunk>, c: Chunk)
    ensures Total(cs + [c]) == Total(cs) + ChunkSize(c)
  {
    if cs == [] {
      assert (cs + [c])[1..] == [];
    } else {
      TotalOfAppend(cs[1..], c);
      assert (cs + [c])[1..] == cs[1..] + [c];
    }
  }

  /** All the bytes of the chunks, one field after the other. */
  function Texts(cs: seq<Chunk>): (seq<Byte>, seq<Byte>, string, string) {
    if cs == [] then ([], [], "", "")
    else
      var (a, b, c, d) := Texts(cs[1..]);
      (cs[0].chunk + a, cs[0].final + b, cs[0].errText + c, cs[0].note + d)
  }

  /** The total is the length of everything the chunks hold. */
  lemma {:induction false} TotalIsEverything(cs: seq<Chunk>)
    ensures var (a, b, c, d) := Texts(cs); Total(cs) == |a| + |b| + |c| + |d|
  {
    if cs != [] { TotalIsEverything(cs[1..]); }
  }

  lemma {:induction false} TotalOfSuffix(cs: seq<Chunk>, i: nat, j: nat)
    requires i <= j <= |cs|
    ensures Total(cs[j..]) <= Total(cs[i..])
    decreases j - i
  {
    if i < j {
      assert cs[i..][1..] == cs[i + 1..];
      TotalOfSuffix(cs, i + 1, j);
    }
  }

  // --- What the buffer is, over the producer's whole history ---

  /** Everything ever appended, and the oldest sequence number kept. `notify` numbers the channel consumers wait on. */
  datatype Buffer = Buffer(history: seq<Chunk>, floor: nat, terminal: bool, notify: nat)

  const EMPTY := Buffer([], 0, false, 0)

  /** The floor after dropping from the front until the rest fits. */
  function Dropped(history: seq<Chunk>, floor: nat): (f: nat)
    requires floor <= |history|
    ensures floor <= f <= |history|
    decreases |history| - floor
  {
    if floor < |history| && Total(history[floor..]) > MAX_BYTES then Dropped(history, floor + 1) else floor
  }

  function Appended(b: Buffer, c: Chunk): Buffer
    requires b.floor <= |b.history|
  {
    Buffer(b.history + [c], Dropped(b.history + [c], b.floor), b.terminal || IsTerminal(c), b.notify + 1)
  }

  ghost predicate BufferOk(b: Buffer) {
    && b.floor <= |b.history|
    && b.notify == |b.history|
    && Total(b.history[b.floor..]) <= MAX_BYTES
    && (b.floor > 0 ==> Total(b.history[b.floor - 1..]) > MAX_BYTES)
    && (b.terminal <==> exists i :: 0 <= i < |b.history| && IsTerminal(b.history[i]))
  }

  lemma {:induction false} DroppedIsLeast(history: seq<Chunk>, floor: nat)
    requires floor <= |history|
    requires floor > 0 ==> Total(history[floor - 1..]) > MAX_BYTES
    ensures var f := Dropped(history, floor);
            && Total(history[f..]) <= MAX_BYTES
            && (f > 0 ==> Total(history[f - 1..]) > MAX_BYTES)
    decreases |history| - floor
  {
    if floor < |history| && Total(history[floor..]) > MAX_BYTES {
      DroppedIsLeast(history, floor + 1);
    }
  }

  lemma AppendKeeps(b: Buffer, c: Chunk)
    requires BufferOk(b)
    ensures BufferOk(Appended(b, c))
  {
    var h := b.history + [c];
    if b.floor > 0 {
      assert h[b.floor - 1..] == b.history[b.floor - 1..] + [c];
      TotalOfAppend(b.history[b.floor - 1..], c);
    }
    DroppedIsLeast(h, b.floor);
    var n := Appended(b, c);
    if n.terminal {
      if b.terminal {
        var i :| 0 <= i < |b.history| && IsTerminal(b.history[i]);
        assert IsTerminal(h[i]);
      } else {
        assert IsTerminal(h[|b.history|]);
      }
    } else {
      forall i | 0 <= i < |h|
        ensures !IsTerminal(h[i])
      {
        if i < |b.history| { assert h[i] == b.history[i]; }
      }
    }
  }

  /** A chunk is gone exactly when it and everything after it no longer fit the cap: what is kept is the longest suffix that fits. */
  lemma KeptExactlyWhatFits(b: Buffer, i: nat)
    requires BufferOk(b) && i <= |b.history|
    ensures i >= b.floor <==> Total(b.history[i..]) <= 10 * 1024 * 1024
  {
    if i >= b.floor {
      TotalOfSuffix(b.history, b.floor, i);
    } else {
      TotalOfSuffix(b.history, i, b.floor - 1);
    }
  }

  // --- The buffer itself ---

  function Numbered(history: seq<Chunk>, from: nat): (cs: seq<SequencedChunk>)
    requires from <= |history|
    ensures |cs| == |history| - from
    ensures forall i :: 0 <= i < |cs| ==> cs[i] == SequencedChunk(from + i, history[from + i])
  {
    seq(|history| - from, i requires 0 <= i < |history| - from => SequencedChunk(from + i, history[from + i]))
  }

  lemma OneMoreChunk(history: seq<Chunk>, floor: nat, c: Chunk)
    requires floor <= |history|
    ensures Numbered(history + [c], floor) == Numbered(history, floor) + [SequencedChunk(|history|, c)]
    ensures Total((history + [c])[floor..]) == Total(history[floor..]) + ChunkSize(c)
  {
    assert (history + [c])[floor..] == history[floor..] + [c];
    TotalOfAppend(history[floor..], c);
  }

  lemma OneLessChunk(history: seq<Chunk>, floor: nat)
    requires floor < |history|
    ensures Numbered(history, floor)[0] == SequencedChunk(floor, history[floor])
    ensures Numbered(history, floor)[1..] == Numbered(history, floor + 1)
    ensures Total(history[floor..]) == ChunkSize(history[floor]) + Total(history[floor + 1..])
  {
    assert history[floor..][1..] == history[floor + 1..];
  }

  lemma DropsOne(history: seq<Chunk>, floor: nat)
    requires floor < |history| && Total(history[floor..]) > MAX_BYTES
    ensures Dropped(history, floor) == Dropped(history, floor + 1)
  {
  }

  lemma DropsNone(history: seq<Chunk>, floor: nat)
    requires floor <= |history| && (floor == |history| || Total(history[floor..]) <= MAX_BYTES)
    ensures Dropped(history, floor) == floor
  {
  }

  class JobBuffer {
    var chunks: seq<SequencedChunk>
    var bytes: int
    var nextSeq: nat
    var floor: nat
    var terminal: bool
    var notify: nat
    ghost var history: seq<Chunk>

    ghost function View(): Buffer
      reads this
    {
      Buffer(history, floor, terminal, notify)
    }

    /** What is retained is the history from the floor on, and the byte count is its size. */
    ghost predicate Valid()
      reads this
    {
      BufferOk(View()) && Mirrors()
    }

    /** The fields that can be computed from the history and the floor are. */
    ghost predicate Mirrors()
      reads this
    {
      && floor <= |history|
      && nextSeq == |history|
      && chunks == Numbered(history, floor)
      && bytes == Total(history[floor..])
    }

    constructor ()
      ensures Valid() && View() == EMPTY
    {
      chunks, bytes, nextSeq, floor, terminal, notify, history := [], 0, 0, 0, false, 0, [];
    }

    method Append(c: Option<Chunk>) returns (seqNo: nat)
      requires Valid()
      modifies this
      ensures Valid()
      ensures c.None? ==> seqNo == 0 && View() == old(View())
      ensures c.Some? ==> seqNo == old(nextSeq) && View() == Appended(old(View()), c.value)
      ensures c.Some? ==> (terminal <==> old(terminal) || c.value.kind != Data)
      ensures c.Some? ==> history == old(history) + [c.value] && notify == old(notify) + 1
    {
      if c.None? {
        return 0;
      }
      AppendKeeps(View(), c.value);
      seqNo := Push(c.value);
    }

    method Push(c: Chunk) returns (seqNo: nat)
      requires Mirrors()
      modifies this
      ensures Mirrors() && seqNo == old(nextSeq) && View() == Appended(old(View()), c)
    {
      OneMoreChunk(history, floor, c);
      seqNo := nextSeq;
      nextSeq := nextSeq + 1;
      chunks := chunks + [SequencedChunk(seqNo, c)];
      history := history + [c];
      bytes := bytes + ChunkSize(c);
      EnforceCap();
      if IsTerminal(c) && !terminal {
        terminal := true;
      }
      notify := notify + 1;
    }

    method EnforceCap()
      requires floor <= |history|
      requires chunks == Numbered(history, floor) && bytes == Total(history[floor..])
      modifies this`chunks, this`bytes, this`floor
      ensures floor == Dropped(history, old(floor))
      ensures chunks == Numbered(history, floor) && bytes == Total(history[floor..])
    {
      ghost var least := Dropped(history, floor);
      while |chunks| > 0 && bytes > MAX_BYTES
        invariant floor <= |history|
        invariant chunks == Numbered(history, floor) && bytes == Total(history[floor..])
        invariant Dropped(history, floor) == least
        decreases |chunks|
      {
        DropsOne(history, floor);
        DropOldest();
      }
      DropsNone(history, floor);
    }

    method DropOldest()
      requires floor < |history|
      requires chunks == Numbered(history, floor) && bytes == Total(history[floor..])
      modifies this`chunks, this`bytes, this`floor
      ensures floor == old(floor) + 1
      ensures chunks == Numbered(history, floor) && bytes == Total(history[floor..])
    {
      var dropped := chunks[0];
      OneLessChunk(history, floor);
      bytes := bytes - ChunkSize(dropped.chunk);
      chunks := chunks[1..];
      floor := dropped.seqNo + 1;
    }

    /** One turn of a consumer under the lock: None is a gap, otherwise everything retained at or past the cursor. */
    method Snapshot(cursor: nat) returns (batch: Option<seq<SequencedChunk>>, term: bool, channel: nat)
      requires Valid()
      ensures batch.None? <==> cursor < floor
      ensures batch.Some? ==> batch.value == Numbered(history, if cursor <= |history| then cursor else |history|)
      ensures term == terminal && channel == notify
    {
      if cursor < floor {
        return None, terminal, notify;
      }
      var out := AtOrPast(cursor);
      return Some(out), terminal, notify;
    }

    method AtOrPast(cursor: nat) returns (out: seq<SequencedChunk>)
      requires floor <= |history| && floor <= cursor && chunks == Numbered(history, floor)
      ensures out == Numbered(history, if cursor <= |history| then cursor else |history|)
    {
      out := [];
      ghost var from := if cursor <= |history| then cursor else |history|;
      for i := 0 to |chunks|
        invariant out == if floor + i <= from then [] else Numbered(history, from)[..floor + i - from]
      {
        if chunks[i].seqNo >= cursor {
          assert Numbered(history, from)[floor + i - from] == chunks[i];
          out := out + [chunks[i]];
        }
      }
    }
  }

  // --- Producer and consumers interleaved ---

  datatype Phase =
    | Turning                                                    // about to take the lock
    | Sending(batch: seq<SequencedChunk>, term: bool, channel: nat)  // copied out, handing over
    | Parked(channel: nat)                                       // waiting for the channel to close
    | Reporting                                                  // about to report a gap
    | Ended                                                      // closed after the terminal snapshot
    | Gapped                                                     // closed after the synthetic error
    | Abandoned                                                  // the consumer's context was cancelled

  datatype Consumer = Consumer(resume: nat, cursor: nat, phase: Phase, received: seq<SequencedChunk>, snapshot: nat)

  type ConsumerId = nat

  datatype System = System(buffer: Buffer, consumers: map<ConsumerId, Consumer>)

  datatype Step =
    | Produce(c: Chunk)
    | Attach(id: ConsumerId, resume: nat)
    | Turn(id: ConsumerId)       // the consumer's next action
    | Cancel(id: ConsumerId)

  function From(b: Buffer, cursor: nat): nat { if cursor <= |b.history| then cursor else |b.history| }

  predicate CanTurn(b: Buffer, k: Consumer) {
    match k.phase
    case Turning => true
    case Sending(_, _, _) => true
    case Parked(channel) => channel != b.notify // closed: the buffer waits on a later one
    case Reporting => true
    case _ => false
  }

  function Turned(b: Buffer, k: Consumer): Consumer
    requires CanTurn(b, k)
  {
    match k.phase
    case Turning =>
      if k.cursor < b.floor then k.(phase := Reporting)
      else k.(phase := Sending(Numbered(b.history, From(b, k.cursor)), b.terminal, b.notify), snapshot := |b.history|)
    case Sending(batch, term, channel) =>
      if batch != [] then
        k.(cursor := batch[0].seqNo + 1, received := k.received + [batch[0]], phase := Sending(batch[1..], term, channel))
      else if term then k.(phase := Ended)
      else k.(phase := Parked(channel))
    case Parked(_) => k.(phase := Turning)
    case Reporting => k.(phase := Gapped)
  }

  predicate Enabled(s: System, step: Step) {
    match step
    case Produce(_) => s.buffer.floor <= |s.buffer.history|
    case Attach(id, _) => id !in s.consumers
    case Turn(id) => id in s.consumers && CanTurn(s.buffer, s.consumers[id])
    case Cancel(id) =>
      && id in s.consumers
      && (s.consumers[id].phase.Sending? || s.consumers[id].phase.Parked? || s.consumers[id].phase.Reporting?)
  }

  function Next(s: System, step: Step): System
    requires Enabled(s, step)
  {
    match step
    case Produce(c) => s.(buffer := Appended(s.buffer, c))
    case Attach(id, resume) => s.(consumers := s.consumers[id := Consumer(resume, resume, Turning, [], 0)])
    case Turn(id) => s.(consumers := s.consumers[id := Turned(s.buffer, s.consumers[id])])
    case Cancel(id) => s.(consumers := s.consumers[id := s.consumers[id].(phase := Abandoned)])
  }

  /** The history from `lo` up to `hi`, numbered; empty when `lo` is not below `hi`. */
  function Slice(history: seq<Chunk>, lo: nat, hi: nat): seq<SequencedChunk>
    requires hi <= |history|
  {
    if lo < hi then Numbered(history[..hi], lo) else []
  }

  /** What a consumer has been sent is the history from its resume point to its cursor, with no gap and no duplicate. */
  ghost predicate ConsumerOk(b: Buffer, k: Consumer) {
    && k.resume <= k.cursor
    && (k.cursor > k.resume ==> k.cursor <= |b.history|)
    && k.received == Slice(b.history, k.resume, From(b, k.cursor))
    && k.snapshot <= |b.history|
    && match k.phase
       case Sending(batch, term, channel) =>
         && channel == k.snapshot
         && batch == Slice(b.history, k.cursor, k.snapshot)
         && (term <==> exists i :: 0 <= i < k.snapshot && IsTerminal(b.history[i]))
       case Parked(channel) =>
         && channel == k.snapshot
         && k.snapshot <= k.cursor
         && forall i :: 0 <= i < k.snapshot ==> !IsTerminal(b.history[i])
       case Ended =>
         && k.snapshot <= k.cursor
         && exists i :: 0 <= i < k.snapshot && IsTerminal(b.history[i])
       case Reporting => k.cursor < b.floor
       case Gapped => k.cursor < b.floor
       case _ => true
  }

  ghost predicate SystemOk(s: System) {
    && BufferOk(s.buffer)
    && forall id :: id in s.consumers ==> ConsumerOk(s.buffer, s.consumers[id])
  }

  lemma AppendSparesConsumers(b: Buffer, c: Chunk, k: Consumer)
    requires BufferOk(b) && ConsumerOk(b, k)
    ensures ConsumerOk(Appended(b, c), k)
  {
    var n := Appended(b, c);
    forall i | 0 <= i < k.snapshot
      ensures n.history[i] == b.history[i]
    {
    }
    if k.cursor <= |b.history| {
      assert n.history[..k.cursor] == b.history[..k.cursor];
    } else {
      assert Slice(n.history, k.resume, From(n, k.cursor)) == [];
    }
    assert n.history[..k.snapshot] == b.history[..k.snapshot];
  }

  lemma TurnKeeps(b: Buffer, k: Consumer)
    requires BufferOk(b) && ConsumerOk(b, k) && CanTurn(b, k)
    ensures ConsumerOk(b, Turned(b, k))
  {
    match k.phase
    case Turning => assert b.history[..|b.history|] == b.history;
    case Sending(batch, term, channel) =>
      if batch != [] { SendKeeps(b, k); }
    case Parked(_) =>
    case Reporting =>
  }

  /** Handing over one chunk of the batch. */
  lemma SendKeeps(b: Buffer, k: Consumer)
    requires BufferOk(b) && ConsumerOk(b, k) && k.phase.Sending? && k.phase.batch != []
    ensures ConsumerOk(b, Turned(b, k))
  {
    SliceHead(b.history, k.cursor, k.snapshot);
    SliceGrows(b.history, k.resume, k.cursor);
  }

  lemma SliceHead(history: seq<Chunk>, lo: nat, hi: nat)
    requires lo < hi <= |history|
    ensures Slice(history, lo, hi)[0] == SequencedChunk(lo, history[lo])
    ensures Slice(history, lo, hi)[1..] == Slice(history, lo + 1, hi)
  {
  }

  lemma SliceGrows(history: seq<Chunk>, lo: nat, hi: nat)
    requires lo <= hi < |history|
    ensures Slice(history, lo, hi + 1) == Slice(history, lo, hi) + [SequencedChunk(hi, history[hi])]
  {
  }

  lemma StepKeeps(s: System, step: Step)
    requires SystemOk(s) && Enabled(s, step)
    ensures SystemOk(Next(s, step))
  {
    match step
    case Produce(c) =>
      AppendKeeps(s.buffer, c);
      forall id | id in s.consumers
        ensures ConsumerOk(Appended(s.buffer, c), s.consumers[id])
      {
        AppendSparesConsumers(s.buffer, c, s.consumers[id]);
      }
    case Attach(_, _) =>
    case Turn(id) => TurnKeeps(s.buffer, s.consumers[id]);
    case Cancel(_) =>
  }

  predicate ValidRun(s: System, steps: seq<Step>)
    decreases |steps|
  {
    steps == [] || (Enabled(s, steps[0]) && ValidRun(Next(s, steps[0]), steps[1..]))
  }

  function Exec(s: System, steps: seq<Step>): System
    requires ValidRun(s, steps)
    decreases |steps|
  {
    if steps == [] then s else Exec(Next(s, steps[0]), steps[1..])
  }

  lemma {:induction false} RunKeeps(s: System, steps: seq<Step>)
    requires SystemOk(s) && ValidRun(s, steps)
    ensures SystemOk(Exec(s, steps))
    decreases |steps|
  {
    if steps != [] {
      StepKeeps(s, steps[0]);
      RunKeeps(Next(s, steps[0]), steps[1..]);
    }
  }

  const INITIAL := System(EMPTY, map[])

  lemma InitialOk()
    ensures SystemOk(INITIAL)
  {
  }

  /**
   In every interleaving, what a consumer has received is exactly the producer's
   history from its resume point on: consecutive numbers, the producer's chunks,
   nothing skipped and nothing twice.
   */
  lemma ReceivedIsTheHistory(steps: seq<Step>, id: ConsumerId)
    requires ValidRun(INITIAL, steps) && id in Exec(INITIAL, steps).consumers
    ensures var s := Exec(INITIAL, steps);
            var k := s.consumers[id];
            && |k.received| == k.cursor - k.resume
            && forall i :: 0 <= i < |k.received| ==>
                             && k.resume + i < |s.buffer.history|
                             && k.received[i] == SequencedChunk(k.resume + i, s.buffer.history[k.resume + i])
  {
    InitialOk();
    RunKeeps(INITIAL, steps);
    ReceivedIsASlice(Exec(INITIAL, steps).buffer, Exec(INITIAL, steps).consumers[id]);
  }

  lemma ReceivedIsASlice(b: Buffer, k: Consumer)
    requires ConsumerOk(b, k)
    ensures |k.received| == k.cursor - k.resume
    ensures forall i :: 0 <= i < |k.received| ==>
                          && k.resume + i < |b.history|
                          && k.received[i] == SequencedChunk(k.resume + i, b.history[k.resume + i])
  {
    var hi := From(b, k.cursor);
    if k.resume < hi {
      assert k.received == Numbered(b.history[..hi], k.resume);
    }
  }


  /** A stream that closed normally delivered everything up to a snapshot that held the terminal frame. */
  lemma NormalEndIsComplete(steps: seq<Step>, id: ConsumerId)
    requires ValidRun(INITIAL, steps) && id in Exec(INITIAL, steps).consumers
    requires Exec(INITIAL, steps).consumers[id].phase.Ended?
    ensures var s := Exec(INITIAL, steps);
            var k := s.consumers[id];
            && k.snapshot <= k.cursor && k.snapshot <= |s.buffer.history|
            && exists i :: 0 <= i < k.snapshot && (s.buffer.history[i].kind == Completed || s.buffer.history[i].kind == Error)
  {
    InitialOk();
    RunKeeps(INITIAL, steps);
    var s := Exec(INITIAL, steps);
    var i :| 0 <= i < s.consumers[id].snapshot && IsTerminal(s.buffer.history[i]);
    assert s.buffer.history[i].kind == Completed || s.buffer.history[i].kind == Error;
  }

  /** On every run the buffer is terminal exactly when a completed or an error chunk was appended. */
  lemma TerminalExactlyAfterTheEnd(steps: seq<Step>)
    requires ValidRun(INITIAL, steps)
    ensures var b := Exec(INITIAL, steps).buffer;
            b.terminal <==> exists i :: 0 <= i < |b.history| && (b.history[i].kind == Completed || b.history[i].kind == Error)
  {
    InitialOk();
    RunKeeps(INITIAL, steps);
    var b := Exec(INITIAL, steps).buffer;
    if b.terminal {
      var i :| 0 <= i < |b.history| && IsTerminal(b.history[i]);
      assert b.history[i].kind == Completed || b.history[i].kind == Error;
    }
    if i :| 0 <= i < |b.history| && (b.history[i].kind == Completed || b.history[i].kind == Error) {
      assert IsTerminal(b.history[i]);
    }
  }

  /** In every interleaving, once a completed or an error chunk is there, no consumer stays parked, and any that has not closed can act and comes closer to closing. */
  lemma NoneParkedAfterTheEnd(steps: seq<Step>, id: ConsumerId)
    requires ValidRun(INITIAL, steps) && id in Exec(INITIAL, steps).consumers
    requires exists i :: 0 <= i < |Exec(INITIAL, steps).buffer.history| && Exec(INITIAL, steps).buffer.history[i].kind != Data
    ensures var s := Exec(INITIAL, steps);
            var k := s.consumers[id];
            k.phase.Ended? || k.phase.Gapped? || k.phase.Abandoned?
            || (CanTurn(s.buffer, k) && TurnsLeft(s.buffer, Turned(s.buffer, k)) < TurnsLeft(s.buffer, k))
  {
    InitialOk();
    RunKeeps(INITIAL, steps);
    TerminalExactlyAfterTheEnd(steps);
    var s := Exec(INITIAL, steps);
    var i :| 0 <= i < |s.buffer.history| && s.buffer.history[i].kind != Data;
    assert s.buffer.history[i].kind == Completed || s.buffer.history[i].kind == Error;
    var k := s.consumers[id];
    if !(k.phase.Ended? || k.phase.Gapped? || k.phase.Abandoned?) {
      FinishedStreamsEnd(s.buffer, k);
    }
  }

  /** The synthetic error appears only when the very next chunk exists and no longer fits the cap. */
  lemma GapMeansDropped(steps: seq<Step>, id: ConsumerId)
    requires ValidRun(INITIAL, steps) && id in Exec(INITIAL, steps).consumers
    requires Exec(INITIAL, steps).consumers[id].phase.Reporting? || Exec(INITIAL, steps).consumers[id].phase.Gapped?
    ensures var s := Exec(INITIAL, steps);
            var next := s.consumers[id].cursor;
            next < |s.buffer.history| && Total(s.buffer.history[next..]) > MAX_BYTES
  {
    InitialOk();
    RunKeeps(INITIAL, steps);
    var s := Exec(INITIAL, steps);
    KeptExactlyWhatFits(s.buffer, s.consumers[id].cursor);
  }

  /** ...and a consumer about to take its turn reports one exactly then. */
  lemma GapExactlyWhenDropped(steps: seq<Step>, id: ConsumerId)
    requires ValidRun(INITIAL, steps) && id in Exec(INITIAL, steps).consumers
    requires Exec(INITIAL, steps).consumers[id].phase.Turning?
    ensures var s := Exec(INITIAL, steps);
            var k := s.consumers[id];
            Turned(s.buffer, k).phase.Reporting?
            <==> k.cursor < |s.buffer.history| && Total(s.buffer.history[k.cursor..]) > MAX_BYTES
  {
    InitialOk();
    RunKeeps(INITIAL, steps);
    var s := Exec(INITIAL, steps);
    var k := s.consumers[id];
    if k.cursor <= |s.buffer.history| {
      KeptExactlyWhatFits(s.buffer, k.cursor);
    }
  }

  /**
   No lost wake-up: in every interleaving of appends and any number of consumers,
   one parked on a channel that is still open has been sent every chunk there is
   at or past its cursor, and the buffer is not terminal.
   */
  lemma NoLostWakeUp(steps: seq<Step>, id: ConsumerId)
    requires ValidRun(INITIAL, steps) && id in Exec(INITIAL, steps).consumers
    requires Exec(INITIAL, steps).consumers[id].phase.Parked?
    requires !CanTurn(Exec(INITIAL, steps).buffer, Exec(INITIAL, steps).consumers[id])
    ensures var s := Exec(INITIAL, steps);
            && s.consumers[id].cursor >= |s.buffer.history| && !s.buffer.terminal
            && forall i :: 0 <= i < |s.buffer.history| ==> s.buffer.history[i].kind == Data
  {
    InitialOk();
    RunKeeps(INITIAL, steps);
    TerminalExactlyAfterTheEnd(steps);
  }

  // --- Every consumer of a finished stream ends ---

  /** Turns left for a consumer of a terminal buffer. */
  function TurnsLeft(b: Buffer, k: Consumer): nat {
    var rest := if k.cursor <= |b.history| then |b.history| - k.cursor else 0;
    match k.phase
    case Turning => 3 + rest
    case Sending(batch, term, _) => if term then 1 + |batch| else 5 + rest + |batch|
    case Parked(_) => 4 + rest
    case Reporting => 1
    case _ => 0
  }

  /** Once the terminal frame is in, a consumer that is not closed can always act, and each action brings it closer to closing. */
  lemma FinishedStreamsEnd(b: Buffer, k: Consumer)
    requires BufferOk(b) && ConsumerOk(b, k) && b.terminal
    requires k.phase.Turning? || k.phase.Sending? || k.phase.Parked? || k.phase.Reporting?
    ensures CanTurn(b, k)
    ensures TurnsLeft(b, Turned(b, k)) < TurnsLeft(b, k)
  {
    if k.phase.Parked? {
      var i :| 0 <= i < |b.history| && IsTerminal(b.history[i]);
    }
  }

  // --- What the steps of a run come to ---

  /** The chunks a run produces, in order. */
  function ProducedIn(steps: seq<Step>): seq<Chunk> {
    if steps == [] then [] else (if steps[0].Produce? then [steps[0].c] else []) + ProducedIn(steps[1..])
  }

  lemma {:induction false} HistoryGrows(s: System, steps: seq<Step>)
    requires ValidRun(s, steps)
    ensures Exec(s, steps).buffer.history == s.buffer.history + ProducedIn(steps)
    decreases |steps|
  {
    if steps != [] { HistoryGrows(Next(s, steps[0]), steps[1..]); }
  }

  /** The buffer's history is exactly what was produced, in order. */
  lemma HistoryIsWhatWasProduced(steps: seq<Step>)
    requires ValidRun(INITIAL, steps)
    ensures Exec(INITIAL, steps).buffer.history == ProducedIn(steps)
  {
    HistoryGrows(INITIAL, steps);
  }

  /** A consumer is there exactly once attached, replays from the number it asked for, and was abandoned exactly when it was cancelled. */
  lemma {:induction false} ConsumersAreTheAttached(s: System, steps: seq<Step>, id: ConsumerId)
    requires ValidRun(s, steps)
    ensures var n := Exec(s, steps);
            && (id in n.consumers <==> id in s.consumers || exists resume :: Attach(id, resume) in steps)
            && (id in s.consumers ==>
                  && n.consumers[id].resume == s.consumers[id].resume
                  && (n.consumers[id].phase.Abandoned? <==> s.consumers[id].phase.Abandoned? || Cancel(id) in steps))
            && (id !in s.consumers && id in n.consumers ==>
                  && Attach(id, n.consumers[id].resume) in steps
                  && (n.consumers[id].phase.Abandoned? <==> Cancel(id) in steps))
    decreases |steps|
  {
    if steps != [] {
      var m := Next(s, steps[0]);
      ConsumersAreTheAttached(m, steps[1..], id);
      assert forall c :: c in steps <==> c == steps[0] || c in steps[1..];
      if steps[0].Attach? && steps[0].id == id {
        assert m.consumers[id] == Consumer(steps[0].resume, steps[0].resume, Turning, [], 0);
      }
    }
  }

  /** Once the end is in the buffer, any consumer, left to its own turns, closes, at the end or at a gap. */
  lemma {:induction false} ConsumerCloses(s: System, id: ConsumerId) returns (steps: seq<Step>)
    requires SystemOk(s) && s.buffer.terminal && id in s.consumers
    requires var p := s.consumers[id].phase; p.Turning? || p.Sending? || p.Parked? || p.Reporting?
    ensures ValidRun(s, steps) && forall c :: c in steps ==> c == Turn(id)
    ensures var n := Exec(s, steps);
            && n.buffer == s.buffer
            && id in n.consumers && (n.consumers[id].phase.Ended? || n.consumers[id].phase.Gapped?)
            && forall other :: other in s.consumers && other != id ==> other in n.consumers && n.consumers[other] == s.consumers[other]
    decreases TurnsLeft(s.buffer, s.consumers[id])
  {
    var k, n := s.consumers[id], Turned(s.buffer, s.consumers[id]);
    FinishedStreamsEnd(s.buffer, k);
    StepKeeps(s, Turn(id));
    var m := Next(s, Turn(id));
    assert m.consumers[id] == n;
    var rest := [];
    if n.phase.Turning? || n.phase.Sending? || n.phase.Parked? || n.phase.Reporting? {
      rest := ConsumerCloses(m, id);
    } else {
      assert ValidRun(m, []) && Exec(m, []) == m;
    }
    steps := [Turn(id)] + rest;
    assert steps[1..] == rest;
  }
}
