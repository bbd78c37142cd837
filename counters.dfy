/**
 * Dwell counters: a map from candidate key to an integer, reset to zero on
 * every commit and decayed one step at a time on noise.
 */
module Counters {
  import opened Wrappers
  import opened KeyboardTables

  type Counts = map<Key, int>

  /** The counter of k, 0 when absent (the `?: 0` reads of the Kotlin engines). */
  function Count(c: Counts, k: Key): int
  {
    if k in c then c[k] else 0
  }

  /** Add one to the counter of k. */
  function Bump(c: Counts, k: Key): (r: Counts)
    ensures r.Keys == c.Keys + {k}
    ensures Count(r, k) == Count(c, k) + 1
    ensures forall j :: j != k ==> Count(r, j) == Count(c, j)
  {
    c[k := Count(c, k) + 1]
  }

  /** Every counter set to 0, the key set kept (reset_all_counters). */
  function Zeroed(c: Counts): (r: Counts)
    ensures r.Keys == c.Keys
    ensures forall k :: Count(r, k) == 0
  {
    map k | k in c :: 0
  }

  /** Every counter of `keys` is present and lies in [0, Threshold - 1]. */
  ghost predicate Bounded(c: Counts)
  {
    forall k :: k in c ==> 0 <= c[k] < Threshold
  }

  /**
   * The decay target among the candidates `cands`: the running-maximum scan
   * of dim_current_selection, which keeps the first key whose counter is
   * strictly above every earlier one and above 0. Defined on the prefix so
   * that it reads like the loop.
   */
  function FirstMax(c: Counts, cands: seq<Key>): (r: Option<nat>)
    ensures r.Some? ==> r.value < |cands| && Count(c, cands[r.value]) > 0
  {
    if cands == [] then None
    else
      var prev := FirstMax(c, cands[..|cands| - 1]);
      var best := if prev.Some? then Count(c, cands[prev.value]) else 0;
      if Count(c, cands[|cands| - 1]) > best then Some(|cands| - 1) else prev
  }

  /** First-highest positive counter among `cands` at index i. */
  ghost predicate IsFirstHighest(c: Counts, cands: seq<Key>, i: nat)
  {
    && i < |cands|
    && Count(c, cands[i]) > 0
    && (forall j :: 0 <= j < |cands| ==> Count(c, cands[j]) <= Count(c, cands[i]))
    && (forall j :: 0 <= j < i ==> Count(c, cands[j]) < Count(c, cands[i]))
  }

  /** The scan finds the first highest positive counter, and nothing exactly when all counters are <= 0. */
  lemma {:induction false} FirstMaxIsFirstHighest(c: Counts, cands: seq<Key>)
    ensures FirstMax(c, cands).None? <==> forall j :: 0 <= j < |cands| ==> Count(c, cands[j]) <= 0
    ensures FirstMax(c, cands).Some? ==> IsFirstHighest(c, cands, FirstMax(c, cands).value)
    decreases |cands|
  {
    if cands != [] {
      var init := cands[..|cands| - 1];
      FirstMaxIsFirstHighest(c, init);
      assert forall j :: 0 <= j < |init| ==> init[j] == cands[j];
    }
  }

  /**
   * The loop of dim_current_selection that finds the decay target: a running
   * maximum starting at 0, replaced only by a strictly larger counter.
   */
  method FindFirstMax(c: Counts, cands: seq<Key>) returns (maxIndex: Option<nat>)
    ensures maxIndex == FirstMax(c, cands)
    ensures maxIndex.None? <==> forall j :: 0 <= j < |cands| ==> Count(c, cands[j]) <= 0
    ensures maxIndex.Some? ==> IsFirstHighest(c, cands, maxIndex.value)
  {
    var maxCounter := 0;
    maxIndex := None;
    var i := 0;
    while i < |cands|
      invariant 0 <= i <= |cands|
      invariant maxIndex == FirstMax(c, cands[..i])
      invariant maxIndex.Some? ==> maxIndex.value < i
      invariant maxCounter == if maxIndex.Some? then Count(c, cands[maxIndex.value]) else 0
    {
      assert cands[..i + 1][..i] == cands[..i];
      if Count(c, cands[i]) > maxCounter {
        maxCounter := Count(c, cands[i]);
        maxIndex := Some(i);
      }
      i := i + 1;
    }
    assert cands[..i] == cands;
    FirstMaxIsFirstHighest(c, cands);
  }
}
