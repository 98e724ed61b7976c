/**
 The credits and debits of one queue as they land, in the mirror and in the store: one by
 one, clamped at zero, each copy in an order of its own.
 */
module TailUpdates {
  function Min(a: real, b: real): real { if a <= b then a else b }

  function Max0(x: real): real { if x > 0.0 then x else 0.0 }

  /** A tail after its updates, each clamped as it lands. */
  function Landed(tail: real, updates: seq<real>): real
    decreases |updates|
  {
    if updates == [] then tail else Landed(Max0(tail + updates[0]), updates[1..])
  }

  function NetOf(updates: seq<real>): real { if updates == [] then 0.0 else updates[0] + NetOf(updates[1..]) }

  /** The lowest the tail would get on the way without the clamp. */
  function Lowest(tail: real, updates: seq<real>): real
    decreases |updates|
  {
    if updates == [] then tail else Min(tail, Lowest(tail + updates[0], updates[1..]))
  }

  lemma {:induction false} LowestShifts(tail: real, shift: real, updates: seq<real>)
    ensures Lowest(tail + shift, updates) == Lowest(tail, updates) + shift
    decreases |updates|
  {
    if updates != [] {
      LowestShifts(tail + updates[0], shift, updates[1..]);
      assert tail + shift + updates[0] == tail + updates[0] + shift;
    }
  }

  lemma {:induction false} LandedFromClamped(tail: real, updates: seq<real>)
    ensures Landed(Max0(tail), updates) == tail + NetOf(updates) - Min(0.0, Lowest(tail, updates))
    decreases |updates|
  {
    if updates != [] {
      var start := Max0(tail);
      LandedFromClamped(start + updates[0], updates[1..]);
      LowestShifts(tail + updates[0], start - tail, updates[1..]);
      assert tail + updates[0] + (start - tail) == start + updates[0];
    }
  }

  /** Clamping one by one adds exactly the deepest the sum would have gone below zero. */
  lemma LandedExactly(tail: real, updates: seq<real>)
    requires tail >= 0.0
    ensures Landed(tail, updates) == tail + NetOf(updates) - Min(0.0, Lowest(tail, updates))
  {
    LandedFromClamped(tail, updates);
  }

  /** Once every update has landed the tail is not below the true sum, in whatever order they came, and above it exactly when some prefix went below zero. */
  lemma LandedCoversTheSum(tail: real, updates: seq<real>)
    requires tail >= 0.0
    ensures Landed(tail, updates) >= tail + NetOf(updates)
    ensures Landed(tail, updates) == tail + NetOf(updates) <==> Lowest(tail, updates) >= 0.0
  {
    LandedExactly(tail, updates);
  }

  lemma {:induction false} NetWithout(updates: seq<real>, i: nat)
    requires i < |updates|
    ensures NetOf(updates) == updates[i] + NetOf(updates[..i] + updates[i + 1..])
    decreases |updates|
  {
    if i == 0 {
      assert updates[..0] + updates[1..] == updates[1..];
    } else {
      NetWithout(updates[1..], i - 1);
      var rest := updates[..i] + updates[i + 1..];
      assert rest[1..] == updates[1..][..i - 1] + updates[1..][i..];
    }
  }

  lemma RestHasOneLess(updates: seq<real>, i: nat)
    requires i < |updates|
    ensures multiset(updates[..i] + updates[i + 1..]) == multiset(updates) - multiset{updates[i]}
  {
    assert updates == updates[..i] + ([updates[i]] + updates[i + 1..]);
  }

  lemma {:induction false} NetIgnoresOrder(a: seq<real>, b: seq<real>)
    requires multiset(a) == multiset(b)
    ensures NetOf(a) == NetOf(b)
    decreases |a|
  {
    if a == [] {
      assert |multiset(b)| == 0;
    } else {
      assert a[0] in multiset(b);
      var i :| 0 <= i < |b| && b[i] == a[0];
      RestHasOneLess(a, 0);
      RestHasOneLess(b, i);
      assert a[..0] + a[1..] == a[1..];
      NetIgnoresOrder(a[1..], b[..i] + b[i + 1..]);
      NetWithout(b, i);
    }
  }

  /** The mirror and the store, given the same updates in different orders, end equal exactly when both orders dip equally far below zero. */
  lemma CopiesAgreeExactly(tail: real, mirror: seq<real>, stored: seq<real>)
    requires tail >= 0.0 && multiset(mirror) == multiset(stored)
    ensures Landed(tail, mirror) == Landed(tail, stored)
            <==> Min(0.0, Lowest(tail, mirror)) == Min(0.0, Lowest(tail, stored))
  {
    LandedExactly(tail, mirror);
    LandedExactly(tail, stored);
    NetIgnoresOrder(mirror, stored);
  }

  /** A job placed on an empty queue and started at once: the mirror sees the credit first, the store the debit, and the store keeps the seconds. */
  lemma CopiesCanDisagree(seconds: real)
    requires seconds > 0.0
    ensures multiset([seconds, -seconds]) == multiset([-seconds, seconds])
    ensures Landed(0.0, [seconds, -seconds]) == 0.0 && Landed(0.0, [-seconds, seconds]) == seconds
  {
    assert [seconds, -seconds][1..] == [-seconds] && [-seconds, seconds][1..] == [seconds];
    assert [-seconds][1..] == [] && [seconds][1..] == [];
    assert Landed(0.0, [seconds, -seconds]) == Landed(seconds, [-seconds]) == Landed(0.0, []);
    assert Landed(0.0, [-seconds, seconds]) == Landed(0.0, [seconds]) == Landed(seconds, []);
    assert multiset([seconds, -seconds]) == multiset{seconds, -seconds};
  }
}
