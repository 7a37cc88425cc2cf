/** The `util` package's ID counter: `init` resets it and each `NewID` adds one and returns the
    new value. The counter is a Go `int64`, so an addition at the top wraps to the bottom. */
module Util {
  import opened Common

  /** The value `atomic.AddInt64(&x, 1)` stores and returns: two's complement wrap-around. */
  function NextID(last: int): (next: int)
    requires InInt64(last)
    ensures InInt64(next)
    ensures last < MaxInt64 ==> next == last + 1
    ensures last == MaxInt64 ==> next == MinInt64
  {
    (last + 1 - MinInt64) % 0x1_0000_0000_0000_0000 + MinInt64
  }

  /** The results of `n` successive `NewID` calls made when the counter holds `last`. */
  function IDsAfter(last: int, n: nat): (ids: seq<int>)
    requires InInt64(last)
    ensures |ids| == n
    ensures forall k :: 0 <= k < n ==> InInt64(ids[k])
    decreases n
  {
    if n == 0 then [] else [NextID(last)] + IDsAfter(NextID(last), n - 1)
  }

  /** The package variables `_baseID` and `_lastID`. */
  class IDGenerator {
    var baseID: int
    var lastID: int

    ghost predicate Valid()
      reads this
    {
      InInt64(baseID) && InInt64(lastID)
    }

    /** The package's `init`: `randomDraw` is the value the seeded generator produced, which
        is then discarded. */
    constructor Init(randomDraw: int)
      requires 0 <= randomDraw <= MaxInt64
      ensures Valid() && baseID == 0 && lastID == 0
    {
      baseID := randomDraw;
      baseID := 0;
      lastID := baseID;
    }

    /** `NewID()`: increments the counter and returns its new value. */
    method NewID() returns (id: int)
      requires Valid()
      modifies this
      ensures Valid() && lastID == NextID(old(lastID)) && id == lastID && baseID == old(baseID)
    {
      lastID := NextID(lastID);
      id := lastID;
    }

    /** `n` successive `NewID()` calls, returning their results in call order. */
    method NewIDs(n: nat) returns (ids: seq<int>)
      requires Valid()
      modifies this
      ensures Valid() && ids == IDsAfter(old(lastID), n) && baseID == old(baseID)
      ensures n > 0 ==> lastID == ids[n - 1]
    {
      ids := [];
      var i := 0;
      while i < n
        invariant 0 <= i <= n && Valid() && baseID == old(baseID)
        invariant ids + IDsAfter(lastID, n - i) == IDsAfter(old(lastID), n)
        invariant i > 0 ==> |ids| == i && lastID == ids[i - 1]
      {
        ghost var before := lastID;
        var id := NewID();
        assert IDsAfter(before, n - i) == [id] + IDsAfter(lastID, n - i - 1);
        assert ids + IDsAfter(before, n - i) == (ids + [id]) + IDsAfter(lastID, n - i - 1);
        ids := ids + [id];
        i := i + 1;
      }
    }
  }

  /** Below the int64 maximum, the k-th of n successive calls returns the counter plus k + 1. */
  lemma {:induction false} IDsAfterCount(last: int, n: nat)
    requires InInt64(last) && last + n <= MaxInt64
    ensures forall k :: 0 <= k < n ==> IDsAfter(last, n)[k] == last + k + 1
    decreases n
  {
    if n > 0 {
      IDsAfterCount(NextID(last), n - 1);
    }
  }

  /** From the state `init` leaves, n calls return 1, 2, ..., n. */
  lemma FreshCounterCounts(n: nat)
    requires n <= MaxInt64
    ensures IDsAfter(0, n) == seq(n, k => k + 1)
  {
    IDsAfterCount(0, n);
  }

  /** As long as the counter stays below the int64 maximum, successive results are strictly
      increasing, hence pairwise distinct. */
  lemma IDsIncreasing(last: int, n: nat)
    requires InInt64(last) && last + n <= MaxInt64
    ensures forall j, k :: 0 <= j < k < n ==> IDsAfter(last, n)[j] < IDsAfter(last, n)[k]
  {
    IDsAfterCount(last, n);
  }

  /** On a freshly initialised counter, n calls return 1, 2, ..., n. */
  method FreshIDs(randomDraw: int, n: nat) returns (ids: seq<int>)
    requires 0 <= randomDraw <= MaxInt64 && n <= MaxInt64
    ensures ids == seq(n, k => k + 1)
  {
    var gen := new IDGenerator.Init(randomDraw);
    ids := gen.NewIDs(n);
    FreshCounterCounts(n);
  }

  /** Three calls on a freshly initialised counter return 1, 2 and 3. */
  method FirstThreeIDs(randomDraw: int) returns (a: int, b: int, c: int)
    requires 0 <= randomDraw <= MaxInt64
    ensures a == 1 && b == 2 && c == 3
  {
    var ids := new IDGenerator.Init(randomDraw);
    a := ids.NewID();
    b := ids.NewID();
    c := ids.NewID();
  }
}
