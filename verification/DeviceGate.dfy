/**
 Which models on a worker's list stand in the way of a load, what a dispatch there
 needs, and the warm-or-cold price the picker puts on the same worker. What the list
 says against what the worker holds is in Residency.
 */
module DeviceGate {
  import opened Wrappers

  type Name = string

  datatype Resident = Resident(model: Name, devices: seq<Name>, active: nat)

  predicate Overlaps(devices: seq<Name>, predicted: seq<Name>) { exists d :: d in devices && d in predicted }

  predicate Inside(devices: seq<Name>, predicted: seq<Name>) { forall d :: d in devices ==> d in predicted }

  /** The target blocks itself where it is placed outside the predicted set; another model blocks unless it is known to be clear of it. */
  predicate Blocks(lm: Resident, target: Name, predicted: seq<Name>) {
    && predicted != []
    && if lm.model == target then lm.devices != [] && !Inside(lm.devices, predicted)
       else lm.devices == [] || Overlaps(lm.devices, predicted)
  }

  function Blockers(residents: seq<Resident>, target: Name, predicted: seq<Name>): seq<Resident> {
    if residents == [] then []
    else (if Blocks(residents[0], target, predicted) then [residents[0]] else []) + Blockers(residents[1..], target, predicted)
  }

  lemma {:induction false} BlockersAreExactly(residents: seq<Resident>, target: Name, predicted: seq<Name>)
    ensures forall lm :: lm in Blockers(residents, target, predicted) <==> lm in residents && Blocks(lm, target, predicted)
    ensures forall lm :: lm in Blockers(residents, target, predicted) <==>
              && lm in residents && predicted != []
              && if lm.model == target then exists d :: d in lm.devices && d !in predicted
                 else lm.devices == [] || exists d :: d in lm.devices && d in predicted
  {
    if residents != [] {
      BlockersAreExactly(residents[1..], target, predicted);
      assert residents == [residents[0]] + residents[1..];
    }
  }

  method ResidentsBlockingLoad(residents: seq<Resident>, target: Name, predicted: seq<Name>) returns (out: seq<Resident>)
    ensures out == Blockers(residents, target, predicted)
  {
    out := [];
    if |predicted| == 0 {
      NothingBlocksNowhere(residents, target);
      return;
    }
    for i := 0 to |residents|
      invariant out == Blockers(residents[..i], target, predicted)
    {
      assert residents[..i + 1] == residents[..i] + [residents[i]];
      OneMoreResident(residents[..i], residents[i], target, predicted);
      var blocks := IsBlocking(residents[i], target, predicted);
      if blocks {
        out := out + [residents[i]];
      }
    }
    assert residents[..|residents|] == residents;
  }

  lemma {:induction false} OneMoreResident(residents: seq<Resident>, lm: Resident, target: Name, predicted: seq<Name>)
    ensures Blockers(residents + [lm], target, predicted)
         == Blockers(residents, target, predicted) + if Blocks(lm, target, predicted) then [lm] else []
  {
    if residents == [] {
      assert residents + [lm] == [lm];
    } else {
      OneMoreResident(residents[1..], lm, target, predicted);
      assert (residents + [lm])[1..] == residents[1..] + [lm];
    }
  }

  method IsBlocking(lm: Resident, target: Name, predicted: seq<Name>) returns (blocks: bool)
    requires predicted != []
    ensures blocks == Blocks(lm, target, predicted)
  {
    if lm.model == target {
      for j := 0 to |lm.devices|
        invariant forall k :: 0 <= k < j ==> lm.devices[k] in predicted
      {
        if lm.devices[j] !in predicted {
          return true;
        }
      }
      return false;
    }
    if |lm.devices| == 0 {
      return true;
    }
    for j := 0 to |lm.devices|
      invariant forall k :: 0 <= k < j ==> lm.devices[k] !in predicted
    {
      if lm.devices[j] in predicted {
        return true;
      }
    }
    return false;
  }

  lemma {:induction false} NothingBlocksNowhere(residents: seq<Resident>, target: Name)
    ensures Blockers(residents, target, []) == []
  {
    if residents != [] { NothingBlocksNowhere(residents[1..], target); }
  }

  predicate Names(lms: seq<Resident>, model: Name) { exists lm :: lm in lms && lm.model == model }

  predicate Has(residents: seq<Resident>, model: Name) { model == "" || Names(residents, model) }

  /** What is left once one model is unloaded. */
  function Unloaded(residents: seq<Resident>, model: Name): (r: seq<Resident>)
    ensures |r| <= |residents|
    ensures forall lm :: lm in r <==> lm in residents && lm.model != model
  {
    if residents == [] then []
    else (if residents[0].model != model then [residents[0]] else []) + Unloaded(residents[1..], model)
  }

  function AllUnloaded(residents: seq<Resident>, out: seq<Resident>): (r: seq<Resident>)
    ensures forall lm :: lm in r <==> lm in residents && !Names(out, lm.model)
    decreases |out|
  {
    if out == [] then residents
    else
      var r := AllUnloaded(Unloaded(residents, out[0].model), out[1..]);
      assert forall lm: Resident :: Names(out, lm.model) <==> lm.model == out[0].model || Names(out[1..], lm.model);
      r
  }

  // --- One pass suffices ---

  /** Unloading some set of models clears the way exactly when it takes every blocker, whatever else it takes. */
  lemma ClearsExactly(residents: seq<Resident>, out: seq<Resident>, target: Name, predicted: seq<Name>)
    ensures Blockers(AllUnloaded(residents, out), target, predicted) == []
            <==> forall lm :: lm in Blockers(residents, target, predicted) ==> Names(out, lm.model)
  {
    var left := AllUnloaded(residents, out);
    var b := Blockers(left, target, predicted);
    BlockersAreExactly(residents, target, predicted);
    BlockersAreExactly(left, target, predicted);
    if b != [] {
      assert b[0] in b && b[0] in left;
    }
    forall lm | b == [] && lm in Blockers(residents, target, predicted)
      ensures Names(out, lm.model)
    {
      assert lm !in b;
    }
  }

  /** One gate pass unloads every blocker and nothing that does not share a blocker's name. */
  lemma OnePassSuffices(residents: seq<Resident>, target: Name, predicted: seq<Name>)
    ensures var blockers := Blockers(residents, target, predicted);
            var left := AllUnloaded(residents, blockers);
            && Blockers(left, target, predicted) == []
            && (forall lm :: lm in residents && lm !in left ==> Names(blockers, lm.model))
            && (forall lm :: lm in residents && !Names(blockers, lm.model) ==> lm in left)
  {
    ClearsExactly(residents, Blockers(residents, target, predicted), target, predicted);
  }

  // --- A dispatch at the gate ---

  predicate NeedsLoad(residents: seq<Resident>, blockers: seq<Resident>, target: Name) {
    target != "" && (!Has(residents, target) || Names(blockers, target))
  }

  predicate Busy(lm: Resident, inflight: set<Name>) { lm.active > 0 || lm.model in inflight }

  predicate AnyBusy(blockers: seq<Resident>, inflight: set<Name>) { exists lm :: lm in blockers && Busy(lm, inflight) }

  // --- The picker's price ---

  /** Seconds a candidate is charged for getting the model ready. */
  function LoadLatency(residents: seq<Resident>, target: Name, predicted: seq<Name>, tail: real, tailModel: Name,
                       bytes: int, bytesPerSec: real): real
  {
    if target == "" || bytes <= 0 then 0.0
    else if tail > 0.0 && tailModel == target then 0.0
    else if tail <= 0.0 && Has(residents, target) && Blockers(residents, target, predicted) == [] then 0.0
    else if bytesPerSec <= 0.0 then 0.0
    else bytes as real / bytesPerSec
  }

  /**
   With an empty tail and a load that costs time, a worker is priced as warm exactly
   when a dispatch there evicts nothing and loads nothing.
   */
  lemma WarmPriceExactly(residents: seq<Resident>, target: Name, predicted: seq<Name>, tailModel: Name, bytes: int, bytesPerSec: real)
    requires target != "" && bytes > 0 && bytesPerSec > 0.0
    ensures LoadLatency(residents, target, predicted, 0.0, tailModel, bytes, bytesPerSec) == 0.0
            <==> && Blockers(residents, target, predicted) == []
                 && !NeedsLoad(residents, Blockers(residents, target, predicted), target)
  {
    var cost := bytes as real / bytesPerSec;
    assert cost * bytesPerSec == bytes as real;
  }

  /** When getting the model ready is free, and what it costs otherwise. */
  lemma LoadPriceExactly(residents: seq<Resident>, target: Name, predicted: seq<Name>, tail: real, tailModel: Name,
                         bytes: int, bytesPerSec: real)
    ensures var price := LoadLatency(residents, target, predicted, tail, tailModel, bytes, bytesPerSec);
            && (price == 0.0 <==>
                  || target == "" || bytes <= 0 || bytesPerSec <= 0.0
                  || (if tail > 0.0 then tailModel == target
                      else (exists lm :: lm in residents && lm.model == target) && Blockers(residents, target, predicted) == []))
            && (price != 0.0 ==> price * bytesPerSec == bytes as real)
  {
    if bytes > 0 && bytesPerSec > 0.0 { PriceIsPositive(bytes as real, bytesPerSec); }
  }

  lemma PriceIsPositive(bytes: real, bytesPerSec: real)
    requires bytes > 0.0 && bytesPerSec > 0.0
    ensures bytes / bytesPerSec != 0.0 && bytes / bytesPerSec * bytesPerSec == bytes
  {
    var cost := bytes / bytesPerSec;
    assert cost * bytesPerSec == bytes;
  }

  /** A worker that could take the job: its list and devices, its seconds in flight and queued, its measured speed, and what a load there projects to. */
  datatype Candidate = Candidate(
    worker: Name, residents: seq<Resident>, predicted: seq<Name>, inflight: real, tail: real, tailModel: Name,
    unitsPerSec: real, projected: int, bytesPerSec: real)

  /** The seconds the job will keep the worker busy: its compute, and the load it needs first. */
  function QueuedSeconds(c: Candidate, target: Name, cost: real, fallback: int): real
    requires c.unitsPerSec > 0.0
  {
    var bytes := if c.projected <= 0 then fallback else c.projected;
    cost / c.unitsPerSec + LoadLatency(c.residents, target, c.predicted, c.tail, c.tailModel, bytes, c.bytesPerSec)
  }

  lemma QueuedIsComputeAndLoad(c: Candidate, target: Name, cost: real, fallback: int)
    requires c.unitsPerSec > 0.0
    ensures var load := LoadLatency(c.residents, target, c.predicted, c.tail, c.tailModel,
                                    if c.projected > 0 then c.projected else fallback, c.bytesPerSec);
            (QueuedSeconds(c, target, cost, fallback) - load) * c.unitsPerSec == cost
  {
    var each := cost / c.unitsPerSec;
    assert each * c.unitsPerSec == cost;
  }

  /** The first candidate of least in-flight, queued and own seconds together; the last are what its tail will be credited with. */
  method PickWorkerQueue(cands: seq<Candidate>, target: Name, cost: real, fallback: int) returns (best: Option<Candidate>, queued: real)
    requires forall i :: 0 <= i < |cands| ==> cands[i].unitsPerSec > 0.0
    ensures best.None? <==> cands == []
    ensures best.None? ==> queued == 0.0
    ensures best.Some? ==> exists i :: && 0 <= i < |cands| && best.value == cands[i] && queued == QueuedSeconds(cands[i], target, cost, fallback)
                                       && IsFirstLeast(cands, target, cost, fallback, i, |cands|)
  {
    best, queued := None, 0.0;
    var bestScore := 0.0;
    for n := 0 to |cands|
      invariant best.None? <==> n == 0
      invariant best.None? ==> queued == 0.0
      invariant best.Some? ==> exists i :: && 0 <= i < n && best.value == cands[i] && queued == QueuedSeconds(cands[i], target, cost, fallback)
                                           && bestScore == cands[i].inflight + cands[i].tail + queued
                                           && IsFirstLeast(cands, target, cost, fallback, i, n)
    {
      var c := cands[n];
      var queuedSec := QueuedSeconds(c, target, cost, fallback);
      var score := c.inflight + c.tail + queuedSec;
      if best.None? || score < bestScore {
        best, bestScore, queued := Some(c), score, queuedSec;
        assert IsFirstLeast(cands, target, cost, fallback, n, n + 1);
      }
    }
  }

  /** Below every candidate before it and not above any after it, among the first `n`. */
  predicate IsFirstLeast(cands: seq<Candidate>, target: Name, cost: real, fallback: int, i: nat, n: nat)
    requires i < |cands| && n <= |cands| && forall j :: 0 <= j < |cands| ==> cands[j].unitsPerSec > 0.0
  {
    var least := cands[i].inflight + cands[i].tail + QueuedSeconds(cands[i], target, cost, fallback);
    && (forall j :: 0 <= j < i && j < n ==> least < cands[j].inflight + cands[j].tail + QueuedSeconds(cands[j], target, cost, fallback))
    && (forall j :: i <= j < n ==> least <= cands[j].inflight + cands[j].tail + QueuedSeconds(cands[j], target, cost, fallback))
  }
}
