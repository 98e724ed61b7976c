/**
 How many slots a load's context pool gets, what memory that projects to, and the
 reservations that keep concurrent loads from being admitted against the same bytes.

 Byte counts and slot counts are unbounded integers; measured seconds are reals.
 */
module PoolSizing {
  import opened FiniteSums

  type Name = string

  const DEFAULT_HEADROOM_PCT: int := 75
  const DEFAULT_BUDGET_SECONDS: real := 2.5
  const DEFAULT_SLOTS_CAP: int := 16

  function Max(a: int, b: int): int { if a >= b then a else b }

  function Min(a: int, b: int): int { if a <= b then a else b }

  /** Division that truncates towards zero. */
  function Quotient(a: int, b: int): int
    requires b > 0
  {
    if a >= 0 then a / b else -(-a / b)
  }

  /** What bounds a pool: the operator's settings, and the measured row's latency and memory figures. */
  datatype Config = Config(budget: real, cap: int)

  datatype Measured = Measured(graphSecs: real, base: int, perSlot: int)

  function EffectiveBudget(c: Config): real { if c.budget <= 0.0 then DEFAULT_BUDGET_SECONDS else c.budget }

  function EffectiveCap(c: Config): int { if c.cap <= 0 then DEFAULT_SLOTS_CAP else c.cap }

  predicate IsPct(p: int) { 1 <= p <= 100 }

  function EffectiveHeadroomPct(override: int, reported: int): (pct: int)
    ensures IsPct(pct)
    ensures 1 <= override <= 100 ==> pct == override
    ensures !(1 <= override <= 100) && 1 <= reported <= 100 ==> pct == reported
    ensures !(1 <= override <= 100) && !(1 <= reported <= 100) ==> pct == 75
  {
    if IsPct(override) then override else if IsPct(reported) then reported else DEFAULT_HEADROOM_PCT
  }

  /** The slots latency asks for: what a full round fits in the budget, at least one, at most the cap. */
  function LatencySlots(c: Config, row: Measured): int {
    var cap := EffectiveCap(c);
    var wanted := if row.graphSecs > 0.0 then (EffectiveBudget(c) / row.graphSecs).Floor else cap;
    Min(Max(wanted, 1), cap)
  }

  function PlannedPoolSize(c: Config, row: Measured, free: int, pct: int): int
    requires IsPct(pct)
  {
    var slots := LatencySlots(c, row);
    if row.perSlot <= 0 || row.base <= 0 then slots
    else
      var headroom := Quotient((free - row.base) * pct, 100);
      if headroom <= 0 then 1 else Min(slots, 1 + Quotient(headroom, row.perSlot))
  }

  function ProjectedLoadBytes(c: Config, row: Measured, free: int, pct: int): int
    requires IsPct(pct)
  {
    if row.base <= 0 then 0
    else if row.perSlot <= 0 then row.base
    else row.base + (PlannedPoolSize(c, row, free, pct) - 1) * row.perSlot
  }

  // --- What the plan means ---

  /** A full round of `n` measured decodes stays inside the budget. */
  predicate RoundFits(c: Config, row: Measured, n: int) {
    row.graphSecs > 0.0 ==> n as real * row.graphSecs <= EffectiveBudget(c)
  }

  /** `n - 1` extra slots stay inside the given share of the memory the base leaves free. */
  predicate SlotsFit(row: Measured, free: int, pct: int, n: int) {
    row.perSlot > 0 && row.base > 0 ==> (n - 1) * row.perSlot * 100 <= (free - row.base) * pct
  }

  lemma FloorIsLargest(budget: real, each: real, n: int)
    requires each > 0.0
    ensures n <= (budget / each).Floor <==> n as real * each <= budget
  {
    var q := budget / each;
    assert q * each == budget;
    if n as real <= q {
      assert n as real * each <= q * each;
    } else {
      assert n as real * each > q * each;
    }
  }

  lemma QuotientIsLargest(a: int, b: int, n: int)
    requires a >= 0 && b > 0
    ensures n <= a / b <==> n * b <= a
  {
    var q := a / b;
    assert q * b <= a < (q + 1) * b;
    if n <= q {
      assert n * b <= q * b;
    } else {
      assert n * b >= (q + 1) * b;
    }
  }

  /** The planned pool is the largest that keeps within the cap, the latency budget and the memory share; one slot is always given. */
  lemma PoolIsTheLargestThatFits(c: Config, row: Measured, free: int, pct: int, n: int)
    requires IsPct(pct) && n >= 1
    ensures n <= PlannedPoolSize(c, row, free, pct)
            <==> n == 1 || (n <= EffectiveCap(c) && RoundFits(c, row, n) && SlotsFit(row, free, pct, n))
    ensures n <= PlannedPoolSize(c, row, free, pct)
            <==> n == 1 || (&& n <= (if c.cap > 0 then c.cap else 16)
                            && (row.graphSecs > 0.0 ==> n as real * row.graphSecs <= if c.budget > 0.0 then c.budget else 2.5)
                            && (row.perSlot > 0 && row.base > 0 ==> (n - 1) * row.perSlot * 100 <= (free - row.base) * pct))
  {
    LatencySlotsExactly(c, row, n);
    MemorySlotsExactly(c, row, free, pct, n);
  }

  lemma MemorySlotsExactly(c: Config, row: Measured, free: int, pct: int, n: int)
    requires IsPct(pct) && n >= 1
    ensures n <= PlannedPoolSize(c, row, free, pct)
            <==> n <= LatencySlots(c, row) && (n == 1 || SlotsFit(row, free, pct, n))
  {
    AtLeastOneSlot(c, row);
    if row.perSlot > 0 && row.base > 0 && n > 1 {
      ExtraSlots(row, free, pct, n);
    }
  }

  lemma AtLeastOneSlot(c: Config, row: Measured)
    ensures LatencySlots(c, row) >= 1
  {
  }

  lemma LatencySlotsExactly(c: Config, row: Measured, n: int)
    requires n >= 1
    ensures n <= LatencySlots(c, row) <==> n == 1 || (n <= EffectiveCap(c) && RoundFits(c, row, n))
  {
    if row.graphSecs > 0.0 {
      FloorIsLargest(EffectiveBudget(c), row.graphSecs, n);
    }
  }

  lemma ExtraSlots(row: Measured, free: int, pct: int, n: int)
    requires IsPct(pct) && n > 1 && row.perSlot > 0 && row.base > 0
    ensures var headroom := Quotient((free - row.base) * pct, 100);
            (headroom > 0 && n <= 1 + Quotient(headroom, row.perSlot)) <==> SlotsFit(row, free, pct, n)
  {
    NestedQuotient((free - row.base) * pct, n - 1, row.perSlot);
  }

  lemma NestedQuotient(share: int, extra: int, each: int)
    requires extra >= 1 && each >= 1
    ensures var headroom := Quotient(share, 100);
            (headroom > 0 && extra <= Quotient(headroom, each)) <==> extra * each * 100 <= share
  {
    var need := extra * each;
    AtLeastOne(extra, each);
    if share >= 0 {
      QuotientIsLargest(share, 100, need);
      QuotientIsLargest(share / 100, each, extra);
    }
  }

  lemma AtLeastOne(a: int, b: int)
    requires a >= 1 && b >= 1
    ensures a * b >= 1
  {
  }

  lemma ShareIsWithin(x: int, pct: int)
    requires IsPct(pct)
    ensures if x >= 0 then 0 <= x * pct <= x * 100 else x * pct < 0
  {
  }

  /** A load's projection fits the free memory exactly when its base does. */
  lemma ProjectionFitsExactlyWhenBaseFits(c: Config, row: Measured, free: int, pct: int)
    requires IsPct(pct) && row.base > 0
    ensures ProjectedLoadBytes(c, row, free, pct) <= free <==> row.base <= free
    ensures 1 <= PlannedPoolSize(c, row, free, pct) <= EffectiveCap(c)
  {
    var pool := PlannedPoolSize(c, row, free, pct);
    PoolIsTheLargestThatFits(c, row, free, pct, 1);
    PoolIsTheLargestThatFits(c, row, free, pct, pool);
    ShareIsWithin(free - row.base, pct);
    if row.perSlot > 0 {
      ExtraIsNotNegative(pool, row.perSlot);
    }
  }

  /** The projection is the base and one slot's figure for every slot past the first of the pool the load gets; without a base there is none. */
  lemma ProjectionCoversThePool(c: Config, row: Measured, free: int, pct: int, n: int)
    requires IsPct(pct) && n == PlannedPoolSize(c, row, free, pct)
    ensures ProjectedLoadBytes(c, row, free, pct)
            == if row.base <= 0 then 0 else row.base + (n - 1) * (if row.perSlot > 0 then row.perSlot else 0)
  {
  }

  lemma ExtraIsNotNegative(pool: int, perSlot: int)
    requires pool >= 1 && perSlot > 0
    ensures (pool - 1) * perSlot >= 0
    ensures pool == 1 ==> (pool - 1) * perSlot == 0
  {
  }

  // --- Free memory and the reservations against it ---

  datatype Device = Device(id: Name, totalMB: int)

  datatype Stat = Stat(id: Name, usedMB: int)

  function LastTotal(devices: seq<Device>, enabled: set<Name>): map<Name, int> {
    if devices == [] then map[]
    else
      var d := devices[|devices| - 1];
      var before := LastTotal(devices[..|devices| - 1], enabled);
      if d.id in enabled then before[d.id := d.totalMB] else before
  }

  function LastUsed(stats: seq<Stat>, enabled: set<Name>): map<Name, int> {
    if stats == [] then map[]
    else
      var d := stats[|stats| - 1];
      var before := LastUsed(stats[..|stats| - 1], enabled);
      if d.id in enabled then before[d.id := d.usedMB] else before
  }

  /** The total of an enabled device is the last one listed for it. */
  lemma {:induction false} LastTotalExactly(devices: seq<Device>, enabled: set<Name>, id: Name)
    ensures id in LastTotal(devices, enabled) <==> id in enabled && exists i :: 0 <= i < |devices| && devices[i].id == id
    ensures id in LastTotal(devices, enabled) ==>
              exists i :: 0 <= i < |devices| && devices[i].id == id && LastTotal(devices, enabled)[id] == devices[i].totalMB
                          && forall j :: i < j < |devices| ==> devices[j].id != id
    decreases |devices|
  {
    if devices != [] {
      LastTotalExactly(devices[..|devices| - 1], enabled, id);
      assert forall i :: 0 <= i < |devices| - 1 ==> devices[i] == devices[..|devices| - 1][i];
    }
  }

  /** So is its usage, of the stats. */
  lemma {:induction false} LastUsedExactly(stats: seq<Stat>, enabled: set<Name>, id: Name)
    ensures id in LastUsed(stats, enabled) <==> id in enabled && exists i :: 0 <= i < |stats| && stats[i].id == id
    ensures id in LastUsed(stats, enabled) ==>
              exists i :: 0 <= i < |stats| && stats[i].id == id && LastUsed(stats, enabled)[id] == stats[i].usedMB
                          && forall j :: i < j < |stats| ==> stats[j].id != id
    decreases |stats|
  {
    if stats != [] {
      LastUsedExactly(stats[..|stats| - 1], enabled, id);
      assert forall i :: 0 <= i < |stats| - 1 ==> stats[i] == stats[..|stats| - 1][i];
    }
  }

  /** A device's unused bytes; a device over its total has none. Totals and usage are reported in MiB. */
  function UnusedBytes(used: map<Name, int>, id: Name, total: int): nat {
    Max(0, (total - if id in used then used[id] else 0) * 1048576)
  }

  function Unused(used: map<Name, int>): (Name, int) -> real {
    (id: Name, total: int) => UnusedBytes(used, id, total) as real
  }

  /** Bytes no heartbeat has seen used, over the enabled device set. */
  ghost function Available(devices: seq<Device>, stats: seq<Stat>, enabled: set<Name>): real {
    Sum(LastTotal(devices, enabled), Unused(LastUsed(stats, enabled)))
  }

  /** An enabled device not listed before adds its total less its usage, in bytes, or nothing when it is over its total; any other adds nothing. */
  lemma OneMoreDevice(devices: seq<Device>, d: Device, stats: seq<Stat>, enabled: set<Name>)
    requires forall i :: 0 <= i < |devices| ==> devices[i].id != d.id
    ensures var used := LastUsed(stats, enabled);
            var unused := d.totalMB - if d.id in used then used[d.id] else 0;
            Available(devices + [d], stats, enabled)
            == Available(devices, stats, enabled) + if d.id in enabled && unused > 0 then (unused * 1024 * 1024) as real else 0.0
    ensures Available([], stats, enabled) == 0.0
  {
    var f := Unused(LastUsed(stats, enabled));
    assert (devices + [d])[..|devices|] == devices;
    if d.id in enabled {
      LastTotalExactly(devices, enabled, d.id);
      PutIn(LastTotal(devices, enabled), f, d.id, d.totalMB);
    }
  }

  method FreeMemoryBytes(devices: seq<Device>, stats: seq<Stat>, enabled: set<Name>, reserved: int) returns (free: int)
    ensures enabled == {} ==> free == 0
    ensures var left := Available(devices, stats, enabled) - Max(0, reserved) as real;
            enabled != {} ==> free as real == if left > 0.0 then left else 0.0
  {
    if enabled == {} {
      return 0;
    }
    var totals: map<Name, int> := map[];
    for i := 0 to |devices|
      invariant totals == LastTotal(devices[..i], enabled)
    {
      assert devices[..i + 1][..i] == devices[..i];
      if devices[i].id in enabled {
        totals := totals[devices[i].id := devices[i].totalMB];
      }
    }
    assert devices[..|devices|] == devices;
    var used: map<Name, int> := map[];
    for i := 0 to |stats|
      invariant used == LastUsed(stats[..i], enabled)
    {
      assert stats[..i + 1][..i] == stats[..i];
      if stats[i].id in enabled {
        used := used[stats[i].id := stats[i].usedMB];
      }
    }
    assert stats[..|stats|] == stats;
    free := SumUnused(totals, used);
    if reserved > 0 {
      free := free - reserved;
    }
    if free < 0 {
      return 0;
    }
  }

  method SumUnused(totals: map<Name, int>, used: map<Name, int>) returns (free: int)
    ensures free as real == Sum(totals, Unused(used)) && free >= 0
  {
    free := 0;
    var left := totals;
    while left != map[]
      invariant free as real + Sum(left, Unused(used)) == Sum(totals, Unused(used)) && free >= 0
      decreases |left|
    {
      var id :| id in left;
      TakeOut(left, Unused(used), id);
      assert Unused(used)(id, left[id]) == UnusedBytes(used, id, left[id]) as real;
      free := AddUnused(free, left[id], if id in used then used[id] else 0);
      left := left - {id};
    }
  }

  method AddUnused(free: int, total: int, used: int) returns (sum: int)
    ensures sum == free + Max(0, (total - used) * 1048576)
  {
    sum := free;
    var delta := (total - used) * 1024 * 1024;
    if delta > 0 {
      sum := sum + delta;
    }
  }

  /** Free bytes under a summed `available` and what is already reserved. */
  function FreeUnder(available: int, reserved: int): int { Max(0, available - Max(0, reserved)) }

  /** What placement asks of a load with a memory figure: its base is free. */
  predicate Fits(row: Measured, free: int) { row.base <= 0 || row.base <= free }

  /** One reservation, taken by a load at its dispatch or given back at its end. */
  datatype Change = Load(row: Measured, pct: int) | Release(bytes: nat)

  /** A dispatch reserves whatever the load projects to, whether or not it fits by then. */
  predicate Allowed(reserved: int, ch: Change) {
    match ch
    case Load(_, pct) => IsPct(pct)
    case Release(bytes) => bytes <= reserved
  }

  function Reserved(c: Config, available: int, reserved: int, ch: Change): int
    requires Allowed(reserved, ch)
  {
    match ch
    case Load(row, pct) => reserved + ProjectedLoadBytes(c, row, FreeUnder(available, reserved), pct)
    case Release(bytes) => reserved - bytes
  }

  predicate ValidRun(c: Config, available: int, reserved: int, run: seq<Change>)
    decreases |run|
  {
    run == [] || (Allowed(reserved, run[0]) && ValidRun(c, available, Reserved(c, available, reserved, run[0]), run[1..]))
  }

  /** Reservations never exceed what the devices had unused, at any point of the run. */
  predicate StaysWithin(c: Config, available: int, reserved: int, run: seq<Change>)
    requires ValidRun(c, available, reserved, run)
    decreases |run|
  {
    && reserved <= available
    && (run != [] ==> StaysWithin(c, available, Reserved(c, available, reserved, run[0]), run[1..]))
  }

  /** Every load finds its base free when it is dispatched. */
  predicate EveryLoadFits(c: Config, available: int, reserved: int, run: seq<Change>)
    requires ValidRun(c, available, reserved, run)
    decreases |run|
  {
    run == [] ||
    (&& (run[0].Load? ==> Fits(run[0].row, FreeUnder(available, reserved)))
     && EveryLoadFits(c, available, Reserved(c, available, reserved, run[0]), run[1..]))
  }

  /**
   However many loads are dispatched and ended between two heartbeats, their reservations
   stay within what the devices had unused exactly when each load's base was free at its
   dispatch. Placement checks that; the dispatch that reserves does not.
   */
  lemma {:induction false} ReservationsStayWithinExactly(c: Config, available: int, reserved: int, run: seq<Change>)
    requires 0 <= reserved <= available && ValidRun(c, available, reserved, run)
    ensures StaysWithin(c, available, reserved, run) <==> EveryLoadFits(c, available, reserved, run)
    decreases |run|
  {
    if run != [] {
      var n := Reserved(c, available, reserved, run[0]);
      OneChangeStaysWithinExactly(c, available, reserved, run[0]);
      if n <= available {
        ReservationsStayWithinExactly(c, available, n, run[1..]);
      }
    }
  }

  lemma OneChangeStaysWithinExactly(c: Config, available: int, reserved: int, ch: Change)
    requires 0 <= reserved <= available && Allowed(reserved, ch)
    ensures Reserved(c, available, reserved, ch) <= available
            <==> (ch.Load? ==> Fits(ch.row, FreeUnder(available, reserved)))
    ensures Reserved(c, available, reserved, ch) >= 0
  {
    if ch.Load? && ch.row.base > 0 {
      ProjectionFitsExactlyWhenBaseFits(c, ch.row, FreeUnder(available, reserved), ch.pct);
      ProjectionIsNotNegative(c, ch.row, FreeUnder(available, reserved), ch.pct);
    }
  }

  lemma ProjectionIsNotNegative(c: Config, row: Measured, free: int, pct: int)
    requires IsPct(pct) && row.base > 0
    ensures ProjectedLoadBytes(c, row, free, pct) >= row.base
  {
    PoolIsTheLargestThatFits(c, row, free, pct, 1);
    if row.perSlot > 0 {
      ExtraIsNotNegative(PlannedPoolSize(c, row, free, pct), row.perSlot);
    }
  }

  /**
   A model swap: a load of 16 is placed while 24 are unused, another model of 16 becomes
   resident, and the dispatch reserves 16 against the 8 that are left, before it evicts.
   */
  lemma ModelSwapOverReserves(c: Config, graphSecs: real)
    ensures var load := Load(Measured(graphSecs, 16, 4), DEFAULT_HEADROOM_PCT);
            && Fits(load.row, FreeUnder(24, 0))
            && ValidRun(c, 8, 0, [load]) && !StaysWithin(c, 8, 0, [load])
  {
    var load := Load(Measured(graphSecs, 16, 4), DEFAULT_HEADROOM_PCT);
    assert ValidRun(c, 8, Reserved(c, 8, 0, load), []);
    assert [load][1..] == [];
    ReservationsStayWithinExactly(c, 8, 0, [load]);
  }
}
