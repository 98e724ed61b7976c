/**
 The cache in front of the per-model benchmark rows, the candidate test that reads
 through it, and the verdict that fails a job no worker can run.
 */
module BenchCache {
  import opened Wrappers

  type Name = string

  /** A benchmark row's key: worker, joined device set, and model key. */
  datatype Triple = Triple(worker: Name, devices: Name, model: Name)

  datatype Row = Row(model: Name, error: string, units: real, base: int, perSlot: int, size: int, mtime: int)

  const NO_ROW := Row("", "", 0.0, 0, 0, 0, 0)

  datatype Entry = Entry(row: Row, ok: bool)

  type Rows = map<Triple, Row>
  type Entries = map<Name, map<Name, Entry>>

  /** What the store answers; a missing row is a miss with an empty row. */
  function Answer(rows: Rows, t: Triple): Entry {
    if t in rows then Entry(rows[t], rows[t].error == "" && rows[t].units > 0.0) else Entry(NO_ROW, false)
  }

  function CacheKey(t: Triple): Name { t.devices + "|" + t.model }

  predicate NoBar(s: Name) { '|' !in s }

  /** Keys of one worker never collide while device sets are free of the bar. */
  lemma KeysAreDistinct(t: Triple, u: Triple)
    requires NoBar(t.devices) && NoBar(u.devices) && CacheKey(t) == CacheKey(u)
    ensures t.devices == u.devices && t.model == u.model
  {
    var k := CacheKey(t);
    assert k[|t.devices|] == '|' && k[|u.devices|] == '|';
    assert forall i :: 0 <= i < |t.devices| ==> k[i] == t.devices[i] && k[i] != '|';
    assert forall i :: 0 <= i < |u.devices| ==> k[i] == u.devices[i] && k[i] != '|';
    assert |t.devices| == |u.devices|;
    assert t.devices == k[..|t.devices|] && t.model == k[|t.devices| + 1..];
    assert u.devices == k[..|u.devices|] && u.model == k[|u.devices| + 1..];
  }

  /** A bar in a device id makes two rows share a cache entry. */
  lemma BarsCollide()
    ensures CacheKey(Triple("w", "gpu|0", "m")) == CacheKey(Triple("w", "gpu", "0|m"))
  {
    assert "gpu|0" + "|" + "m" == "gpu" + "|" + "0|m";
  }

  function Join(ids: seq<Name>): Name {
    if |ids| == 0 then "" else if |ids| == 1 then ids[0] else ids[0] + "," + Join(ids[1..])
  }

  lemma {:induction false} JoinHasNoBar(ids: seq<Name>)
    ensures NoBar(Join(ids)) <==> forall i :: 0 <= i < |ids| ==> NoBar(ids[i])
  {
    if |ids| > 1 {
      JoinHasNoBar(ids[1..]);
      assert forall i :: 1 <= i < |ids| ==> ids[i] == ids[1..][i - 1];
      assert Join(ids) == ids[0] + "," + Join(ids[1..]);
    }
  }

  /** Of devices without a comma, the joined key tells the list. */
  lemma {:induction false} JoinTellsTheList(ids: seq<Name>, js: seq<Name>)
    requires |ids| > 0 && |js| > 0 && Join(ids) == Join(js)
    requires (forall i :: 0 <= i < |ids| ==> ',' !in ids[i]) && (forall j :: 0 <= j < |js| ==> ',' !in js[j])
    ensures ids == js
    decreases |ids|
  {
    CommaAfterTheFirst(ids);
    CommaAfterTheFirst(js);
    if |ids| > 1 && |js| > 1 {
      var k := Join(ids);
      assert k[|ids[0]|] == ',' && k[|js[0]|] == ',';
      assert forall i :: 0 <= i < |ids[0]| ==> k[i] == ids[0][i] && k[i] != ',';
      assert forall j :: 0 <= j < |js[0]| ==> k[j] == js[0][j] && k[j] != ',';
      assert |ids[0]| == |js[0]|;
      assert ids[0] == k[..|ids[0]|] && js[0] == k[..|js[0]|];
      assert Join(ids[1..]) == k[|ids[0]| + 1..] && Join(js[1..]) == k[|js[0]| + 1..];
      JoinTellsTheList(ids[1..], js[1..]);
      assert ids == [ids[0]] + ids[1..] && js == [js[0]] + js[1..];
    } else {
      assert |ids| == |js| == 1;
      assert ids == [ids[0]] && js == [js[0]];
    }
  }

  lemma CommaAfterTheFirst(ids: seq<Name>)
    requires |ids| > 0
    ensures |ids| == 1 ==> Join(ids) == ids[0]
    ensures |ids| > 1 ==> Join(ids) == ids[0] + "," + Join(ids[1..]) && Join(ids)[|ids[0]|] == ','
  {
  }

  // --- Transparency ---

  predicate Hit(cache: Entries, t: Triple) { t.worker in cache && CacheKey(t) in cache[t.worker] }

  /** Every hit is what the store would answer. */
  ghost predicate Transparent(rows: Rows, cache: Entries) {
    forall t: Triple :: NoBar(t.devices) && Hit(cache, t) ==> cache[t.worker][CacheKey(t)] == Answer(rows, t)
  }

  function Filled(cache: Entries, t: Triple, e: Entry): Entries {
    var known := if t.worker in cache then cache[t.worker] else map[];
    cache[t.worker := known[CacheKey(t) := e]]
  }

  /** One worker's entries go, or all of them for the empty name. */
  function Dropped(cache: Entries, worker: Name): Entries { if worker == "" then map[] else cache - {worker} }

  /** A read that reached the store and has yet to fill the cache. */
  datatype Read = Read(t: Triple, e: Entry)

  datatype State = State(rows: Rows, cache: Entries, pending: map<nat, Read>)

  const EMPTY := State(map[], map[], map[])

  datatype Step =
    | Save(t: Triple, row: Row)                     // a measurement or an incapable verdict
    | RemoveModel(model: Name)
    | RemoveWorker(worker: Name)
    | Disconnect(worker: Name)
    | ReadStore(id: nat, t: Triple, failed: bool)   // a failed read counts as a miss
    | Fill(id: nat)

  predicate Enabled(s: State, c: Step) {
    match c
    case ReadStore(id, t, _) => id !in s.pending && NoBar(t.devices) && !Hit(s.cache, t)
    case Fill(id) => id in s.pending
    case Save(t, _) => NoBar(t.devices)
    case _ => true
  }

  /** A row write and the invalidation that follows it are one step. */
  function Next(s: State, c: Step): State
    requires Enabled(s, c)
  {
    match c
    case Save(t, row) => s.(rows := s.rows[t := row], cache := Dropped(s.cache, t.worker))
    case RemoveModel(model) => s.(rows := map t | t in s.rows && t.model != model :: s.rows[t], cache := map[])
    case RemoveWorker(worker) =>
      s.(rows := map t | t in s.rows && t.worker != worker :: s.rows[t],
         cache := Dropped(s.cache, worker))
    case Disconnect(worker) => s.(cache := Dropped(s.cache, worker))
    case ReadStore(id, t, failed) =>
      s.(pending := s.pending[id := Read(t, if failed then Entry(NO_ROW, false) else Answer(s.rows, t))])
    case Fill(id) => s.(cache := Filled(s.cache, s.pending[id].t, s.pending[id].e), pending := s.pending - {id})
  }

  /** What the store holds after a step, and what a lookup takes from it: a failed read is a miss of an empty row. */
  lemma StepRowsExactly(s: State, c: Step)
    requires Enabled(s, c)
    ensures var n := Next(s, c);
            match c {
              case Save(t, row) => n.rows == s.rows[t := row] && n.pending == s.pending
              case RemoveModel(model) => && (forall t :: t in n.rows <==> t in s.rows && t.model != model)
                                         && (forall t :: t in n.rows ==> n.rows[t] == s.rows[t]) && n.cache == map[]
              case RemoveWorker(worker) => && (forall t :: t in n.rows <==> t in s.rows && t.worker != worker)
                                           && (forall t :: t in n.rows ==> n.rows[t] == s.rows[t])
              case Disconnect(_) => n.rows == s.rows && n.pending == s.pending
              case ReadStore(id, t, failed) =>
                && n.rows == s.rows && n.cache == s.cache && n.pending == s.pending[id := n.pending[id]] && n.pending[id].t == t
                && (if t in s.rows && !failed then
                      n.pending[id].e.row == s.rows[t] && (n.pending[id].e.ok <==> s.rows[t].error == "" && s.rows[t].units > 0.0)
                    else n.pending[id].e == Entry(Row("", "", 0.0, 0, 0, 0, 0), false))
              case Fill(id) => n.rows == s.rows && n.pending == s.pending - {id} && Hit(n.cache, s.pending[id].t)
            }
  {
  }

  ghost predicate ReadsOk(s: State) { forall id :: id in s.pending ==> NoBar(s.pending[id].t.devices) }

  /** A cache that answers for the store keeps doing so exactly until a lookup fills in something the store no longer answers. */
  lemma StaysTransparentExactly(s: State, c: Step)
    requires ReadsOk(s) && Transparent(s.rows, s.cache) && Enabled(s, c)
    ensures Transparent(Next(s, c).rows, Next(s, c).cache)
            <==> (c.Fill? ==> s.pending[c.id].e == Answer(s.rows, s.pending[c.id].t))
  {
    var n := Next(s, c);
    if c.Fill? {
      var t, e := s.pending[c.id].t, s.pending[c.id].e;
      assert Hit(n.cache, t) && n.cache[t.worker][CacheKey(t)] == e;
      forall u: Triple | e == Answer(s.rows, t) && NoBar(u.devices) && Hit(n.cache, u)
        ensures n.cache[u.worker][CacheKey(u)] == Answer(n.rows, u)
      {
        if u.worker == t.worker && CacheKey(u) == CacheKey(t) {
          KeysAreDistinct(t, u);
        } else {
          assert Hit(s.cache, u);
        }
      }
    } else {
      forall u: Triple | NoBar(u.devices) && Hit(n.cache, u)
        ensures n.cache[u.worker][CacheKey(u)] == Answer(n.rows, u)
      {
        assert Hit(s.cache, u);
      }
    }
  }

  /** The write changes what some lookup already read. */
  ghost predicate Overtakes(s: State, c: Step)
    requires Enabled(s, c)
  {
    exists id :: id in s.pending && Answer(Next(s, c).rows, s.pending[id].t) != Answer(s.rows, s.pending[id].t)
  }

  ghost predicate ValidRun(s: State, steps: seq<Step>)
    decreases |steps|
  {
    steps == [] ||
    (&& Enabled(s, steps[0]) && !Overtakes(s, steps[0]) && (steps[0].ReadStore? ==> !steps[0].failed)
     && ValidRun(Next(s, steps[0]), steps[1..]))
  }

  function Exec(s: State, steps: seq<Step>): State
    requires ValidRun(s, steps)
    decreases |steps|
  {
    if steps == [] then s else Exec(Next(s, steps[0]), steps[1..])
  }

  ghost predicate Inv(s: State) {
    && ReadsOk(s) && Transparent(s.rows, s.cache)
    && (forall id :: id in s.pending ==> s.pending[id].e == Answer(s.rows, s.pending[id].t))
  }

  lemma {:induction false} RunKeepsInv(s: State, steps: seq<Step>)
    requires Inv(s) && ValidRun(s, steps)
    ensures Inv(Exec(s, steps))
    decreases |steps|
  {
    if steps != [] {
      StaysTransparentExactly(s, steps[0]);
      var n := Next(s, steps[0]);
      forall id | id in n.pending && id in s.pending
        ensures n.pending[id].e == Answer(n.rows, n.pending[id].t)
      {
        assert n.pending[id] == s.pending[id];
      }
      RunKeepsInv(n, steps[1..]);
    }
  }

  /** With no write overtaking a lookup and no failed read, every cached answer is the store's own. */
  lemma CacheIsTransparent(steps: seq<Step>)
    requires ValidRun(EMPTY, steps)
    ensures Transparent(Exec(EMPTY, steps).rows, Exec(EMPTY, steps).cache)
  {
    RunKeepsInv(EMPTY, steps);
  }

  // --- What it looks like when it is not ---

  const ROW := Row("m", "", 1.0, 0, 0, 0, 0)

  lemma RunOfThree(s: State, a: Step, b: Step, c: Step)
    requires Enabled(s, a) && Enabled(Next(s, a), b) && Enabled(Next(Next(s, a), b), c)
    ensures exists steps: seq<Step> :: Steps(s, steps) == Some(Next(Next(Next(s, a), b), c))
  {
    assert [c][1..] == [] && [b, c][1..] == [c] && [a, b, c][1..] == [b, c];
    assert Steps(Next(Next(Next(s, a), b), c), []) == Some(Next(Next(Next(s, a), b), c));
    assert Steps(Next(Next(s, a), b), [c]) == Some(Next(Next(Next(s, a), b), c));
    assert Steps(Next(s, a), [b, c]) == Some(Next(Next(Next(s, a), b), c));
    assert Steps(s, [a, b, c]) == Some(Next(Next(Next(s, a), b), c));
  }

  /** Where the steps lead, overtaking writes and failed reads allowed. */
  function Steps(s: State, steps: seq<Step>): Option<State>
    decreases |steps|
  {
    if steps == [] then Some(s) else if Enabled(s, steps[0]) then Steps(Next(s, steps[0]), steps[1..]) else None
  }

  ghost predicate ReachesOpaque(s: State) {
    !Transparent(s.rows, s.cache) && exists steps: seq<Step> :: Steps(EMPTY, steps) == Some(s)
  }

  /** A lookup misses, the measurement lands and invalidates, and the lookup then caches its miss. */
  lemma OvertakenLookupIsCached()
    ensures exists s :: ReachesOpaque(s)
  {
    var t := Triple("w", "gpu", "m");
    var a, b, c := ReadStore(0, t, false), Save(t, ROW), Fill(0);
    var m := Next(Next(EMPTY, a), b);
    RunOfThree(EMPTY, a, b, c);
    StaysTransparentExactly(EMPTY, a);
    StaysTransparentExactly(Next(EMPTY, a), b);
    StaysTransparentExactly(m, c);
    assert ReachesOpaque(Next(m, c));
  }

  /** The measurement is there, the read fails, and a miss is cached. */
  lemma FailedReadIsCached()
    ensures exists s :: ReachesOpaque(s)
  {
    var t := Triple("w", "gpu", "m");
    var a, b, c := Save(t, ROW), ReadStore(0, t, true), Fill(0);
    var m := Next(Next(EMPTY, a), b);
    RunOfThree(EMPTY, a, b, c);
    StaysTransparentExactly(EMPTY, a);
    StaysTransparentExactly(Next(EMPTY, a), b);
    StaysTransparentExactly(m, c);
    assert ReachesOpaque(Next(m, c));
  }

  // --- What placement asks of it ---

  datatype ModelFile = ModelFile(name: Name, primary: bool)

  function IsNamed(f: Option<ModelFile>): bool { f.Some? && f.value.name != "" }

  function IsPrimary(f: Option<ModelFile>): bool { IsNamed(f) && f.value.primary }

  /** The first named primary artifact, or else the first named one, or else the empty key. */
  predicate IsModelKey(files: seq<Option<ModelFile>>, key: Name) {
    if exists i :: 0 <= i < |files| && IsPrimary(files[i]) then
      exists i :: 0 <= i < |files| && IsPrimary(files[i]) && files[i].value.name == key
                  && forall j :: 0 <= j < i ==> !IsPrimary(files[j])
    else if exists i :: 0 <= i < |files| && IsNamed(files[i]) then
      exists i :: 0 <= i < |files| && IsNamed(files[i]) && files[i].value.name == key
                  && forall j :: 0 <= j < i ==> !IsNamed(files[j])
    else key == ""
  }

  method BenchModelKey(files: seq<Option<ModelFile>>) returns (key: Name)
    ensures IsModelKey(files, key)
    ensures (exists i :: 0 <= i < |files| && files[i].Some? && files[i].value.name != "" && files[i].value.primary) ==>
              exists i :: 0 <= i < |files| && files[i].Some? && files[i].value.primary && key != "" && files[i].value.name == key
                          && forall j :: 0 <= j < i ==> files[j].Some? && files[j].value.primary ==> files[j].value.name == ""
    ensures (forall i :: 0 <= i < |files| && files[i].Some? && files[i].value.name != "" ==> !files[i].value.primary) && key != "" ==>
              exists i :: 0 <= i < |files| && files[i].Some? && files[i].value.name == key
                          && forall j :: 0 <= j < i && files[j].Some? ==> files[j].value.name == ""
    ensures key == "" <==> forall i :: 0 <= i < |files| && files[i].Some? ==> files[i].value.name == ""
  {
    key := "";
    for i := 0 to |files|
      invariant forall j :: 0 <= j < i ==> !IsPrimary(files[j])
      invariant key == "" ==> forall j :: 0 <= j < i ==> !IsNamed(files[j])
      invariant key != "" ==> exists k :: 0 <= k < i && IsNamed(files[k]) && files[k].value.name == key
                                          && forall j :: 0 <= j < k ==> !IsNamed(files[j])
    {
      var f := files[i];
      if f.None? || f.value.name == "" {
        continue;
      }
      if f.value.primary {
        return f.value.name;
      }
      if key == "" {
        key := f.value.name;
      }
    }
  }

  datatype Worker = Worker(id: Name, devices: seq<Name>)

  /** The models root: none wired, or each key's size and modification time where the file can be read. */
  type Files = Option<map<Name, (int, int)>>

  predicate FileUnchanged(files: Files, row: Row) {
    files.None? || row.model == "" || (row.model in files.value && files.value[row.model] == (row.size, row.mtime))
  }

  /** No models root is wired, the row names no file, or the file can be read and has the row's size and time. */
  predicate IsSameFile(files: Files, row: Row) {
    match files
    case None => true
    case Some(known) => row.model != "" ==> row.model in known && known[row.model].0 == row.size && known[row.model].1 == row.mtime
  }

  /** The store has an error for the worker's devices and the model, on the same file. */
  predicate ConcludedOn(rows: Rows, files: Files, w: Worker, model: Name) {
    var key := Triple(w.id, Join(w.devices), model);
    key in rows && rows[key].error != "" && IsSameFile(files, rows[key])
  }

  function KeyOf(w: Worker, model: Name): Triple { Triple(w.id, Join(w.devices), model) }

  predicate Eligible(w: Worker) { |w.devices| > 0 }

  /** The worker's current row is a usable measurement of an unchanged file. */
  predicate Usable(rows: Rows, files: Files, w: Worker, model: Name) {
    Eligible(w) && Answer(rows, KeyOf(w, model)).ok && FileUnchanged(files, Answer(rows, KeyOf(w, model)).row)
  }

  /** The worker's current row is an incapable verdict on an unchanged file. */
  predicate Incapable(rows: Rows, files: Files, w: Worker, model: Name) {
    var t := KeyOf(w, model);
    t in rows && rows[t].error != "" && FileUnchanged(files, rows[t])
  }

  class Bench {
    var rows: Rows
    var entries: Entries

    ghost predicate Valid()
      reads this
    {
      Transparent(rows, entries)
    }

    constructor (persisted: Rows)
      ensures Valid() && rows == persisted
    {
      rows, entries := persisted, map[];
    }

    method Get(t: Triple) returns (e: Option<Entry>)
      ensures e == if Hit(entries, t) then Some(entries[t.worker][CacheKey(t)]) else None
    {
      return if t.worker in entries && CacheKey(t) in entries[t.worker] then Some(entries[t.worker][CacheKey(t)]) else None;
    }

    method Put(t: Triple, e: Entry)
      modifies this`entries
      ensures entries == Filled(old(entries), t, e)
      ensures t.worker in entries && CacheKey(t) in entries[t.worker] && entries[t.worker][t.devices + "|" + t.model] == e
      ensures forall w :: w in entries <==> w in old(entries) || w == t.worker
      ensures forall w :: w in old(entries) && w != t.worker ==> entries[w] == old(entries)[w]
      ensures t.worker in old(entries) ==> forall k :: k in old(entries)[t.worker] && k != t.devices + "|" + t.model ==>
                k in entries[t.worker] && entries[t.worker][k] == old(entries)[t.worker][k]
    {
      if t.worker !in entries {
        entries := entries[t.worker := map[]];
      }
      entries := entries[t.worker := entries[t.worker][CacheKey(t) := e]];
    }

    method Invalidate(worker: Name)
      modifies this`entries
      ensures entries == Dropped(old(entries), worker)
      ensures entries == if worker == "" then map[] else old(entries) - {worker}
      ensures old(Valid()) ==> Valid()
    {
      if worker == "" {
        entries := map[];
        return;
      }
      entries := entries - {worker};
      assert forall t :: Hit(entries, t) ==> Hit(old(entries), t);
    }

    method Save(t: Triple, row: Row)
      requires Valid() && NoBar(t.devices)
      modifies this
      ensures Valid() && rows == old(rows)[t := row]
    {
      rows := rows[t := row];
      Invalidate(t.worker);
      assert forall u :: Hit(entries, u) ==> Hit(old(entries), u) && u != t;
    }

    /**
     Through the cache or not, the answer is the store's, unless the store cannot be read:
     then it is a miss, and the miss is cached.
     */
    method LookupModelBenchmark(t: Triple, unreadable: bool) returns (e: Entry)
      requires Valid() && NoBar(t.devices)
      modifies this`entries
      ensures var read := unreadable && !Hit(old(entries), t);
              && e == (if read then Entry(NO_ROW, false) else Answer(rows, t))
              && (Valid() <==> e == Answer(rows, t))
              && entries == (if Hit(old(entries), t) then old(entries) else Filled(old(entries), t, e))
              && (if !read && t in rows then e.row == rows[t] && (e.ok <==> rows[t].error == "" && rows[t].units > 0.0)
                  else !e.ok && e.row == Row("", "", 0.0, 0, 0, 0, 0))
    {
      var hit := Get(t);
      if hit.Some? {
        return hit.value;
      }
      e := if !unreadable && t in rows then Entry(rows[t], rows[t].error == "" && rows[t].units > 0.0) else Entry(NO_ROW, false);
      StaysTransparentExactly(State(rows, entries, map[0 := Read(t, e)]), Fill(0));
      Put(t, e);
    }

    /** The row that makes a worker a candidate, when there is one and it can be read; a read that fails hides it from then on. */
    method ModelBenchmark(w: Worker, model: Name, files: Files, unreadable: bool) returns (r: Option<Row>)
      requires Valid() && forall i :: 0 <= i < |w.devices| ==> NoBar(w.devices[i])
      modifies this`entries
      ensures var failed := Eligible(w) && unreadable && !Hit(old(entries), KeyOf(w, model));
              && r == (if !failed && Usable(rows, files, w, model) then Some(rows[KeyOf(w, model)]) else None)
              && (Valid() <==> !failed || Answer(rows, KeyOf(w, model)) == Entry(NO_ROW, false))
      ensures var key := Triple(w.id, Join(w.devices), model);
              var failed := w.devices != [] && unreadable && !Hit(old(entries), key);
              r == if w.devices != [] && !failed && key in rows && rows[key].error == "" && rows[key].units > 0.0 && IsSameFile(files, rows[key])
                   then Some(rows[key]) else None
    {
      if |w.devices| == 0 {
        return None;
      }
      JoinHasNoBar(w.devices);
      var e := LookupModelBenchmark(KeyOf(w, model), unreadable);
      if !e.ok || !FileUnchanged(files, e.row) {
        return None;
      }
      return Some(e.row);
    }

    /** The worker's row is asked of the store, and the store fails. */
    ghost predicate Unread(w: Worker, model: Name, unreadable: set<Name>)
      reads this
    {
      Eligible(w) && w.id in unreadable && !Hit(entries, KeyOf(w, model))
    }

    /**
     Nothing is pending exactly when some worker is eligible and every eligible one has
     an incapable verdict on an unchanged file that could be read; the text is then the
     last one's verdict. A read that fails leaves the job waiting.
     */
    method ModelBenchConclusion(workers: seq<Worker>, model: Name, files: Files, unreadable: set<Name>)
      returns (pending: bool, errText: string)
      requires Valid()
      requires forall i, j :: 0 <= i < |workers| && 0 <= j < |workers[i].devices| ==> NoBar(workers[i].devices[j])
      modifies this`entries
      ensures !pending || (forall i :: 0 <= i < |workers| ==> !old(Unread(workers[i], model, unreadable))) ==> Valid()
      ensures !pending <==> && model != "" && (exists i :: 0 <= i < |workers| && Eligible(workers[i]))
                            && (forall i :: 0 <= i < |workers| && Eligible(workers[i]) ==>
                                  Incapable(rows, files, workers[i], model) && !old(Unread(workers[i], model, unreadable)))
      ensures !pending ==> forall i :: 0 <= i < |workers| && workers[i].devices != [] ==> ConcludedOn(rows, files, workers[i], model)
      ensures (&& model != "" && unreadable == {} && (exists i :: 0 <= i < |workers| && workers[i].devices != [])
               && (forall i :: 0 <= i < |workers| && workers[i].devices != [] ==> ConcludedOn(rows, files, workers[i], model))) ==> !pending
      ensures pending ==> errText == ""
      ensures !pending ==> exists i :: 0 <= i < |workers| && Eligible(workers[i])
                                       && errText == rows[KeyOf(workers[i], model)].error
                                       && forall j :: i < j < |workers| ==> !Eligible(workers[j])
    {
      if model == "" {
        return true, "";
      }
      var eligible := 0;
      errText := "";
      for n := 0 to |workers|
        invariant Valid()
        invariant forall t: Triple :: t.worker in unreadable ==> (Hit(entries, t) <==> old(Hit(entries, t)))
        invariant eligible == 0 <==> forall i :: 0 <= i < n ==> !Eligible(workers[i])
        invariant eligible == 0 ==> errText == ""
        invariant forall i :: 0 <= i < n && Eligible(workers[i]) ==>
                    Incapable(rows, files, workers[i], model) && !old(Unread(workers[i], model, unreadable))
        invariant eligible > 0 ==> exists i :: 0 <= i < n && Eligible(workers[i])
                                               && errText == rows[KeyOf(workers[i], model)].error
                                               && forall j :: i < j < n ==> !Eligible(workers[j])
      {
        var w := workers[n];
        if |w.devices| == 0 {
          continue;
        }
        eligible := eligible + 1;
        JoinHasNoBar(w.devices);
        var e := LookupModelBenchmark(KeyOf(w, model), w.id in unreadable);
        if e.ok && FileUnchanged(files, e.row) {
          assert !Incapable(rows, files, w, model);
          return true, "";
        } else if e.row.error != "" && FileUnchanged(files, e.row) {
          errText := e.row.error;
        } else {
          assert !Incapable(rows, files, w, model) || old(Unread(w, model, unreadable));
          return true, "";
        }
      }
      pending := eligible == 0;
    }
  }
}
