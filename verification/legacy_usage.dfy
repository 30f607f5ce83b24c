// The older statistics of src/bus_usage.rs: a single-channel accumulator that keeps the open delay
// and burst as the last list element (indexed by `current_delay`/`current_burst`) and counts every
// closed value into a growable bucket array indexed by `ilog2`, the `VecStatistic` lists of the
// multi-channel usage, and the header of the single-channel table.
module LegacyUsage {
  import opened Wrappers
  import opened Cycles
  import opened Text
  import B = Buckets
  import MultiUsage
  import CU = CycleUsage

  const U32: int := 0x1_0000_0000

  /** A value of Rust's `u32`. */
  type U32Value = x: int | 0 <= x < 0x1_0000_0000

  /** `a - b` on `u32` as a release build computes it: wrapping modulo 2^32. */
  function WrappingSub(a: U32Value, b: U32Value): (r: U32Value)
    ensures a >= b ==> r == a - b
    ensures a < b ==> r == a - b + U32
  {
    if a >= b then a - b else a - b + U32
  }

  /** `a + b` on `u32`, wrapping. */
  function WrappingAdd(a: U32Value, b: U32Value): (r: U32Value)
    ensures a + b < U32 ==> r == a + b
    ensures a + b >= U32 ==> r == a + b - U32
  {
    if a + b < U32 then a + b else a + b - U32
  }

  // ----- bucket arrays -----

  /** `if buckets.len() <= i { buckets.resize(i + 1, 0) } buckets[i] += 1`. */
  function Bump(buckets: seq<nat>, i: nat): (r: seq<nat>)
    ensures |r| == if i < |buckets| then |buckets| else i + 1
    decreases i + 1 - |buckets|
  {
    if i < |buckets| then buckets[i := buckets[i] + 1] else Bump(buckets + [0], i)
  }

  /** Bucket `i` gains one count; the others keep theirs, and the new ones start at 0. */
  lemma {:induction false} BumpAt(buckets: seq<nat>, i: nat)
    ensures forall j :: 0 <= j < |Bump(buckets, i)| ==>
              Bump(buckets, i)[j] == (if j < |buckets| then buckets[j] else 0) + (if j == i then 1 else 0)
    decreases i + 1 - |buckets|
  {
    if i >= |buckets| {
      BumpAt(buckets + [0], i);
    }
  }

  /** The bucket array after bumping the bucket of every key in turn. */
  function Tally(keys: seq<nat>): seq<nat>
  {
    if |keys| == 0 then [] else Bump(Tally(keys[..|keys| - 1]), keys[|keys| - 1])
  }

  lemma TallySnoc(keys: seq<nat>, k: nat)
    ensures Tally(keys + [k]) == Bump(Tally(keys), k)
  {
    assert (keys + [k])[..|keys|] == keys;
  }

  function Sum(s: seq<nat>): nat
  {
    if |s| == 0 then 0 else Sum(s[..|s| - 1]) + s[|s| - 1]
  }

  function MaxOf(s: seq<int>): (m: int)
    requires |s| > 0
    ensures (exists i :: 0 <= i < |s| && s[i] == m) && forall i :: 0 <= i < |s| ==> s[i] <= m
  {
    if |s| == 1 then s[0]
    else
      var m := MaxOf(s[..|s| - 1]);
      assert forall i :: 0 <= i < |s| - 1 ==> s[..|s| - 1][i] == s[i];
      if s[|s| - 1] > m then s[|s| - 1] else m
  }

  /** Each entry of the bucket array is the number of keys equal to its index; no key lies beyond it. */
  lemma {:induction false} TallyCounts(keys: seq<nat>, j: nat)
    ensures j < |Tally(keys)| ==> Tally(keys)[j] == multiset(keys)[j]
    ensures j >= |Tally(keys)| ==> j !in keys
    decreases |keys|
  {
    if |keys| > 0 {
      var init := keys[..|keys| - 1];
      TallyCounts(init, j);
      BumpAt(Tally(init), keys[|keys| - 1]);
      assert keys == init + [keys[|keys| - 1]];
    }
  }

  /** The array is exactly long enough for the largest key. */
  lemma {:induction false} TallyLength(keys: seq<nat>)
    ensures |keys| == 0 ==> |Tally(keys)| == 0
    ensures |keys| > 0 ==> |Tally(keys)| == MaxOf(keys) + 1
    decreases |keys|
  {
    if |keys| > 1 {
      var init := keys[..|keys| - 1];
      TallyLength(init);
      assert forall i :: 0 <= i < |init| ==> init[i] == keys[i];
    }
  }

  lemma {:induction false} SumIncrement(s: seq<nat>, i: nat)
    requires i < |s|
    ensures Sum(s[i := s[i] + 1]) == Sum(s) + 1
    decreases |s|
  {
    var s' := s[i := s[i] + 1];
    if i == |s| - 1 {
      assert s'[..|s| - 1] == s[..|s| - 1];
    } else {
      SumIncrement(s[..|s| - 1], i);
      assert s'[..|s| - 1] == s[..|s| - 1][i := s[i] + 1];
    }
  }

  lemma {:induction false} SumBump(s: seq<nat>, i: nat)
    ensures Sum(Bump(s, i)) == Sum(s) + 1
    decreases i + 1 - |s|
  {
    if i < |s| {
      SumIncrement(s, i);
    } else {
      SumBump(s + [0], i);
      assert (s + [0])[..|s|] == s;
    }
  }

  /** The bucket counts add up to the number of keys. */
  lemma {:induction false} TallySum(keys: seq<nat>)
    ensures Sum(Tally(keys)) == |keys|
    decreases |keys|
  {
    if |keys| > 0 {
      TallySum(keys[..|keys| - 1]);
      SumBump(Tally(keys[..|keys| - 1]), keys[|keys| - 1]);
    }
  }

  /** Every element exceeds `bound`. */
  predicate AllAbove(s: seq<int>, bound: int)
  {
    |s| == 0 || (AllAbove(s[..|s| - 1], bound) && s[|s| - 1] > bound)
  }

  lemma {:induction false} AllAboveAt(s: seq<int>, bound: int)
    ensures AllAbove(s, bound) <==> forall i :: 0 <= i < |s| ==> s[i] > bound
    decreases |s|
  {
    if |s| > 0 {
      AllAboveAt(s[..|s| - 1], bound);
    }
  }

  lemma AllAboveSnoc(s: seq<int>, v: int, bound: int)
    ensures AllAbove(s + [v], bound) <==> AllAbove(s, bound) && v > bound
  {
    assert (s + [v])[..|s|] == s;
  }

  /** A closed delay or burst: at least one cycle. */
  predicate Positive(s: seq<int>)
  {
    AllAbove(s, 0)
  }

  /** The bucket of every closed delay or burst: its `ilog2`. */
  function LogKeys(values: seq<int>): (r: seq<nat>)
    requires Positive(values)
    ensures |r| == |values|
  {
    if |values| == 0 then [] else LogKeys(values[..|values| - 1]) + [B.ILog2(values[|values| - 1])]
  }

  /** Each value's key is its `ilog2`. */
  lemma {:induction false} LogKeysAt(values: seq<int>)
    requires Positive(values)
    ensures forall i :: 0 <= i < |values| ==> values[i] >= 1 && LogKeys(values)[i] == B.ILog2(values[i])
    decreases |values|
  {
    AllAboveAt(values, 0);
    if |values| > 0 {
      LogKeysAt(values[..|values| - 1]);
    }
  }

  lemma LogKeysSnoc(values: seq<int>, v: int)
    requires Positive(values) && v >= 1
    ensures Positive(values + [v]) && LogKeys(values + [v]) == LogKeys(values) + [B.ILog2(v)]
  {
    assert (values + [v])[..|values|] == values;
  }

  /** The bucket array counts each closed value `v` in bucket `ilog2(v)`, bumping as the values close. */
  function LogBuckets(values: seq<int>): seq<nat>
    requires Positive(values)
  {
    if |values| == 0 then [] else Bump(LogBuckets(values[..|values| - 1]), B.ILog2(values[|values| - 1]))
  }

  lemma LogBucketsSnoc(values: seq<int>, v: int)
    requires Positive(values) && v >= 1
    ensures Positive(values + [v]) && LogBuckets(values + [v]) == Bump(LogBuckets(values), B.ILog2(v))
  {
    assert (values + [v])[..|values|] == values;
  }

  /** Bumping value by value is tallying the keys of all values. */
  lemma {:induction false} LogBucketsTally(values: seq<int>)
    requires Positive(values)
    ensures LogBuckets(values) == Tally(LogKeys(values))
    decreases |values|
  {
    if |values| > 0 {
      var init, v := values[..|values| - 1], values[|values| - 1];
      LogBucketsTally(init);
      assert values == init + [v];
      LogKeysSnoc(init, v);
      TallySnoc(LogKeys(init), B.ILog2(v));
    }
  }

  /** The example from the dump tests: delays 1, 2, 1, 6 and 2 fill the buckets 2, 2 and 1. */
  lemma DelayBucketsExample()
    ensures Positive([1, 2, 1, 6, 2]) && LogBuckets([1, 2, 1, 6, 2]) == [2, 2, 1]
  {
    var vs: seq<int> := [1, 2, 1, 6, 2];
    assert B.ILog2(6) == 2 && B.ILog2(2) == 1 && B.ILog2(1) == 0;
    AllAboveAt(vs, 0);
    LogKeysAt(vs);
    assert LogKeys(vs) == [0, 1, 0, 2, 1];
    TallyExample();
    LogBucketsTally(vs);
  }

  lemma TallyExample()
    ensures Tally([0, 1, 0, 2, 1]) == [2, 2, 1]
  {
    assert [0, 1, 0, 2, 1][..4] == [0, 1, 0, 2];
    assert [0, 1, 0, 2][..3] == [0, 1, 0];
    assert [0, 1, 0][..2] == [0, 1];
    assert [0, 1][..1] == [0];
    assert Bump([], 0) == Bump([0], 0) == [1];
    assert Bump([1], 1) == Bump([1, 0], 1) == [1, 1];
    assert Bump([2, 1], 2) == Bump([2, 1, 0], 2) == [2, 1, 1];
    assert Tally([0]) == [1];
    assert Tally([0, 1]) == [1, 1];
    assert Tally([0, 1, 0]) == [2, 1];
    assert Tally([0, 1, 0, 2]) == [2, 1, 1];
  }

  /** A closed value `v` lies in the range the header labels bucket `ilog2(v)` with: 2^i to 2^(i+1) - 1. */
  lemma LogBucketRange(v: int, i: nat)
    requires v >= 1
    ensures B.ILog2(v) == i <==> B.Pow2(i) <= v <= B.Pow2(i + 1) - 1
  {
    if B.Pow2(i) <= v <= B.Pow2(i + 1) - 1 {
      B.ExponentUnique(v, i, B.ILog2(v));
    }
  }

  // ----- the single-channel accumulator -----

  /**
   * A delay list with its bucket array: the last element is the open delay, never negative; every
   * closed delay is positive and longer than `max_burst_delay`, and counted in the bucket of its `ilog2`.
   */
  ghost predicate DelaysSound(delays: seq<int>, buckets: seq<nat>, maxBurstDelay: int)
  {
    |delays| >= 1 && delays[|delays| - 1] >= 0 &&
    Positive(delays[..|delays| - 1]) && AllAbove(delays[..|delays| - 1], maxBurstDelay) &&
    buckets == LogBuckets(delays[..|delays| - 1])
  }

  /** A burst list with its bucket array: the open burst is never negative; closed bursts are positive and counted. */
  ghost predicate BurstsSound(bursts: seq<int>, buckets: seq<nat>)
  {
    |bursts| >= 1 && bursts[|bursts| - 1] >= 0 &&
    Positive(bursts[..|bursts| - 1]) &&
    buckets == LogBuckets(bursts[..|bursts| - 1])
  }

  /** A list whose values are all closed: positive and counted in the bucket array. */
  ghost predicate Finished(values: seq<int>, buckets: seq<nat>)
  {
    Positive(values) && buckets == LogBuckets(values)
  }

  /** `end` on one list: a positive open value is counted, a zero one is popped. */
  lemma FinishList(values: seq<int>, buckets: seq<nat>)
    requires |values| >= 1 && values[|values| - 1] >= 0
    requires Positive(values[..|values| - 1]) && buckets == LogBuckets(values[..|values| - 1])
    ensures values[|values| - 1] > 0 ==> Finished(values, Bump(buckets, B.ILog2(values[|values| - 1])))
    ensures values[|values| - 1] == 0 ==> Finished(values[..|values| - 1], buckets)
  {
    var closed, v := values[..|values| - 1], values[|values| - 1];
    if v > 0 {
      assert values == closed + [v];
      LogBucketsSnoc(closed, v);
    }
  }

  lemma DelaysSoundSetLast(delays: seq<int>, buckets: seq<nat>, maxBurstDelay: int, last: int, v: int)
    requires DelaysSound(delays, buckets, maxBurstDelay) && last == |delays| - 1 && v >= 0
    ensures DelaysSound(delays[last := v], buckets, maxBurstDelay)
  {
    assert delays[last := v][..last] == delays[..last];
  }

  lemma DelaysSoundClose(delays: seq<int>, buckets: seq<nat>, maxBurstDelay: int)
    requires DelaysSound(delays, buckets, maxBurstDelay)
    requires delays[|delays| - 1] > 0 && delays[|delays| - 1] > maxBurstDelay
    ensures DelaysSound(delays + [0], Bump(buckets, B.ILog2(delays[|delays| - 1])), maxBurstDelay)
  {
    var closed, d := delays[..|delays| - 1], delays[|delays| - 1];
    assert delays == closed + [d];
    assert (delays + [0])[..|delays|] == closed + [d];
    AllAboveSnoc(closed, d, maxBurstDelay);
    LogBucketsSnoc(closed, d);
  }

  lemma BurstsSoundSetLast(bursts: seq<int>, buckets: seq<nat>, last: int, v: int)
    requires BurstsSound(bursts, buckets) && last == |bursts| - 1 && v >= 0
    ensures BurstsSound(bursts[last := v], buckets)
  {
    assert bursts[last := v][..last] == bursts[..last];
  }

  lemma BurstsSoundClose(bursts: seq<int>, buckets: seq<nat>, actual: int)
    requires BurstsSound(bursts, buckets) && actual >= 1
    ensures BurstsSound(bursts[|bursts| - 1 := actual] + [0], Bump(buckets, B.ILog2(actual)))
  {
    var closed := bursts[..|bursts| - 1];
    assert bursts[|bursts| - 1 := actual] == closed + [actual];
    assert (bursts[|bursts| - 1 := actual] + [0])[..|bursts|] == closed + [actual];
    LogBucketsSnoc(closed, actual);
  }

  /** The delay list after a busy cycle: a delay longer than `max_burst_delay` is closed, and the open delay is 0. */
  function SettledDelays(delays: seq<int>, maxBurstDelay: int): seq<int>
    requires |delays| >= 1
  {
    var d := delays[|delays| - 1];
    if d > 0 && d > maxBurstDelay then delays + [0]
    else if d > 0 then delays[|delays| - 1 := 0]
    else delays
  }

  function SettledBuckets(delays: seq<int>, buckets: seq<nat>, maxBurstDelay: int): seq<nat>
    requires |delays| >= 1
  {
    var d := delays[|delays| - 1];
    if d > 0 && d > maxBurstDelay then Bump(buckets, B.ILog2(d)) else buckets
  }

  /** The idle gap a busy cycle folds into `burst_delays`: an open delay no longer than `max_burst_delay`. */
  function AbsorbedGap(delays: seq<int>, maxBurstDelay: int): int
    requires |delays| >= 1
  {
    var d := delays[|delays| - 1];
    if 0 < d <= maxBurstDelay then d else 0
  }

  /** The burst list after a wasted cycle that left the open delay at `delay`. */
  function SettledBursts(bursts: seq<int>, delay: int, maxBurstDelay: int): seq<int>
    requires |bursts| >= 1
  {
    var b := bursts[|bursts| - 1];
    if delay > maxBurstDelay && b > delay - 1 then bursts[|bursts| - 1 := b - maxBurstDelay] + [0]
    else if delay > maxBurstDelay then bursts[|bursts| - 1 := 0]
    else bursts[|bursts| - 1 := b + 1]
  }

  function SettledBurstBuckets(bursts: seq<int>, buckets: seq<nat>, delay: int, maxBurstDelay: int): seq<nat>
    requires |bursts| >= 1
  {
    var b := bursts[|bursts| - 1];
    if delay > maxBurstDelay && b > delay - 1 then Bump(buckets, B.ILog2(b - maxBurstDelay))
    else buckets
  }

  /** The list part of the accumulator: both lists with their bucket arrays, and the absorbed pauses. */
  datatype Lists = Lists(
    transactionDelays: seq<int>, transactionDelayBuckets: seq<nat>,
    burstLengths: seq<int>, burstLengthBuckets: seq<nat>, burstDelays: int)

  ghost predicate ListsSound(l: Lists, maxBurstDelay: int)
  {
    DelaysSound(l.transactionDelays, l.transactionDelayBuckets, maxBurstDelay) &&
    BurstsSound(l.burstLengths, l.burstLengthBuckets)
  }

  /** The lists after a busy cycle: the open burst grows and the open delay is settled. */
  function BusyStep(l: Lists, maxBurstDelay: int): Lists
    requires |l.transactionDelays| >= 1 && |l.burstLengths| >= 1
  {
    var delays, last := l.transactionDelays, |l.burstLengths| - 1;
    Lists(SettledDelays(delays, maxBurstDelay), SettledBuckets(delays, l.transactionDelayBuckets, maxBurstDelay),
          l.burstLengths[last := l.burstLengths[last] + 1], l.burstLengthBuckets,
          l.burstDelays + AbsorbedGap(delays, maxBurstDelay))
  }

  /** The lists after a wasted cycle: the open delay grows and the open burst is settled against it. */
  function WastedStep(l: Lists, maxBurstDelay: int): Lists
    requires |l.transactionDelays| >= 1 && |l.burstLengths| >= 1
  {
    var last := |l.transactionDelays| - 1;
    var delay := l.transactionDelays[last] + 1;
    Lists(l.transactionDelays[last := delay], l.transactionDelayBuckets,
          SettledBursts(l.burstLengths, delay, maxBurstDelay),
          SettledBurstBuckets(l.burstLengths, l.burstLengthBuckets, delay, maxBurstDelay),
          l.burstDelays)
  }

  lemma BusyStepSound(l: Lists, maxBurstDelay: int)
    requires ListsSound(l, maxBurstDelay)
    ensures ListsSound(BusyStep(l, maxBurstDelay), maxBurstDelay)
  {
    var delays, buckets := l.transactionDelays, l.transactionDelayBuckets;
    var last := |delays| - 1;
    var d := delays[last];
    if d > 0 && d > maxBurstDelay {
      DelaysSoundClose(delays, buckets, maxBurstDelay);
      DelaysSoundSetLast(delays + [0], Bump(buckets, B.ILog2(d)), maxBurstDelay, last + 1, 0);
      assert (delays + [0])[last + 1 := 0] == delays + [0];
    } else if d > 0 {
      DelaysSoundSetLast(delays, buckets, maxBurstDelay, last, 0);
    }
    BurstsSoundSetLast(l.burstLengths, l.burstLengthBuckets, |l.burstLengths| - 1, l.burstLengths[|l.burstLengths| - 1] + 1);
  }

  lemma WastedStepSound(l: Lists, maxBurstDelay: int)
    requires ListsSound(l, maxBurstDelay)
    ensures ListsSound(WastedStep(l, maxBurstDelay), maxBurstDelay)
  {
    var delays := l.transactionDelays;
    var delay := delays[|delays| - 1] + 1;
    DelaysSoundSetLast(delays, l.transactionDelayBuckets, maxBurstDelay, |delays| - 1, delay);
    var bursts, buckets := l.burstLengths, l.burstLengthBuckets;
    var last := |bursts| - 1;
    var b := bursts[last];
    if delay > maxBurstDelay && b > delay - 1 {
      BurstsSoundClose(bursts, buckets, b - maxBurstDelay);
    } else if delay > maxBurstDelay {
      BurstsSoundSetLast(bursts, buckets, last, 0);
    } else {
      BurstsSoundSetLast(bursts, buckets, last, b + 1);
    }
  }

  /** The lists of a fresh accumulator: one open delay and one open burst, both 0. */
  function Initial(): (l: Lists)
    ensures ListsSound(l, 0)
  {
    assert [0][..0] == [];
    Lists([0], [], [0], [], 0)
  }

  /** The lists after one cycle of type `t`. */
  function Step(l: Lists, t: CycleType, maxBurstDelay: int): (r: Lists)
    requires |l.transactionDelays| >= 1 && |l.burstLengths| >= 1
    ensures |r.transactionDelays| >= |l.transactionDelays| && |r.burstLengths| >= |l.burstLengths|
  {
    if t == Busy then BusyStep(l, maxBurstDelay) else WastedStep(l, maxBurstDelay)
  }

  /** The lists after the cycles `ts`, from a fresh accumulator. */
  function Run(ts: seq<CycleType>, maxBurstDelay: int): (l: Lists)
    ensures |l.transactionDelays| >= 1 && |l.burstLengths| >= 1
  {
    if |ts| == 0 then Initial() else Step(Run(ts[..|ts| - 1], maxBurstDelay), ts[|ts| - 1], maxBurstDelay)
  }

  /** Whatever the cycles, the lists stay sound: the bucket arrays count exactly the closed values. */
  lemma {:induction false} RunSound(ts: seq<CycleType>, maxBurstDelay: int)
    ensures ListsSound(Run(ts, maxBurstDelay), maxBurstDelay)
    decreases |ts|
  {
    if |ts| == 0 {
      assert [0][..0] == [];
    } else {
      var l := Run(ts[..|ts| - 1], maxBurstDelay);
      RunSound(ts[..|ts| - 1], maxBurstDelay);
      if ts[|ts| - 1] == Busy {
        BusyStepSound(l, maxBurstDelay);
      } else {
        WastedStepSound(l, maxBurstDelay);
      }
    }
  }

  /** `end`: a positive open value is closed and counted, a zero one is dropped. */
  function EndStep(l: Lists): (r: Lists)
    requires |l.transactionDelays| >= 1 && |l.burstLengths| >= 1
  {
    var delays, bursts := l.transactionDelays, l.burstLengths;
    var d, b := delays[|delays| - 1], bursts[|bursts| - 1];
    Lists(if d > 0 then delays else delays[..|delays| - 1],
          if d > 0 then Bump(l.transactionDelayBuckets, B.ILog2(d)) else l.transactionDelayBuckets,
          if b > 0 then bursts else bursts[..|bursts| - 1],
          if b > 0 then Bump(l.burstLengthBuckets, B.ILog2(b)) else l.burstLengthBuckets,
          l.burstDelays)
  }

  /** After `end` every list element is closed, positive and counted in its bucket. */
  lemma EndFinished(l: Lists, maxBurstDelay: int)
    requires ListsSound(l, maxBurstDelay)
    ensures Finished(EndStep(l).transactionDelays, EndStep(l).transactionDelayBuckets)
    ensures Finished(EndStep(l).burstLengths, EndStep(l).burstLengthBuckets)
  {
    FinishList(l.transactionDelays, l.transactionDelayBuckets);
    FinishList(l.burstLengths, l.burstLengthBuckets);
  }

  /** Before `end`, each bucket array holds one count per closed value, that is all but the open one. */
  lemma BucketsCountClosed(l: Lists, maxBurstDelay: int)
    requires ListsSound(l, maxBurstDelay)
    ensures Sum(l.transactionDelayBuckets) == |l.transactionDelays| - 1
    ensures Sum(l.burstLengthBuckets) == |l.burstLengths| - 1
  {
    var delays, bursts := l.transactionDelays[..|l.transactionDelays| - 1], l.burstLengths[..|l.burstLengths| - 1];
    LogBucketsTally(delays);
    LogBucketsTally(bursts);
    TallySum(LogKeys(delays));
    TallySum(LogKeys(bursts));
  }

  /** After `end`, each bucket array holds one count per list element. */
  lemma BucketsCountAll(values: seq<int>, buckets: seq<nat>)
    requires Finished(values, buckets)
    ensures Sum(buckets) == |values|
  {
    LogBucketsTally(values);
    TallySum(LogKeys(values));
  }

  class SingleChannelBusUsage {
    const busName: string
    var busy: int
    var backpressure: int
    var noData: int
    var noTransaction: int
    var free: int
    var reset: int
    var transactionDelays: seq<int>
    var currentDelay: int
    var transactionDelayBuckets: seq<nat>
    var burstLengths: seq<int>
    var burstLengthBuckets: seq<nat>
    var burstDelays: int
    var currentBurst: int
    const maxBurstDelay: int
    /** The types of the cycles added so far. */
    ghost var history: seq<CycleType>

    ghost function Counts(): CU.Counters
      reads this`busy, this`backpressure, this`noData, this`noTransaction, this`free, this`reset
    {
      CU.Counters(busy, backpressure, noData, noTransaction, free, reset)
    }

    ghost function State(): Lists
      reads this`transactionDelays, this`transactionDelayBuckets, this`burstLengths, this`burstLengthBuckets, this`burstDelays
    {
      Lists(transactionDelays, transactionDelayBuckets, burstLengths, burstLengthBuckets, burstDelays)
    }

    /** `current_delay` and `current_burst` point at the open (last) delay and burst. */
    ghost predicate Indexed()
      reads this`transactionDelays, this`currentDelay, this`burstLengths, this`currentBurst
    {
      currentDelay == |transactionDelays| - 1 >= 0 && currentBurst == |burstLengths| - 1 >= 0
    }

    /**
     * Before `end`: every cycle is counted once, the indices point at the open delay and burst, and
     * the lists are those the cycles so far produce (hence sound, by `RunSound`).
     */
    ghost predicate Valid()
      reads this
    {
      busy >= 0 && backpressure >= 0 && noData >= 0 && noTransaction >= 0 && free >= 0 && reset >= 0 &&
      busy + backpressure + noData + noTransaction + free + reset == |history| &&
      Indexed() && State() == Run(history, maxBurstDelay)
    }

    /** `SingleChannelBusUsage::new`: all counters 0, one open delay and one open burst. */
    constructor (name: string, maxBurstDelay: int)
      ensures Valid() && history == [] && busName == name && this.maxBurstDelay == maxBurstDelay
      ensures Counts() == CU.Counters(0, 0, 0, 0, 0, 0) && State() == Initial()
    {
      busName := name;
      busy, backpressure, noData, noTransaction, free, reset := 0, 0, 0, 0, 0, 0;
      transactionDelays, currentDelay, transactionDelayBuckets := [0], 0, [];
      burstLengths, burstLengthBuckets, burstDelays, currentBurst := [0], [], 0, 0;
      this.maxBurstDelay := maxBurstDelay;
      history := [];
    }

    /** `add_cycle`: one more cycle of type `t`. */
    method AddCycle(t: CycleType)
      requires Valid()
      modifies this
      ensures Valid() && history == old(history) + [t]
      ensures Counts() == CU.Tally(old(Counts()), t)
      ensures State() == Step(old(State()), t, maxBurstDelay)
    {
      if t == Busy {
        AddBusyCycle();
      } else {
        AddWastedCycle(t);
      }
      history := history + [t];
      assert history[..|history| - 1] == old(history);
    }

    /** `add_busy_cycle`: the busy counter and the open burst grow, and the open delay is settled. */
    method AddBusyCycle()
      requires Indexed()
      modifies this`busy, this`burstLengths, this`transactionDelays, this`currentDelay, this`transactionDelayBuckets, this`burstDelays
      ensures Indexed() && Counts() == CU.Tally(old(Counts()), Busy)
      ensures State() == BusyStep(old(State()), maxBurstDelay)
    {
      busy := busy + 1;
      SettleDelay();
    }

    /**
     * The list part of `add_busy_cycle`: the open burst grows; an open delay longer than
     * `max_burst_delay` is closed and counted, a shorter one is added to `burst_delays`, and either
     * way the open delay is 0 again.
     */
    method SettleDelay()
      requires Indexed()
      modifies this`burstLengths, this`transactionDelays, this`currentDelay, this`transactionDelayBuckets, this`burstDelays
      ensures Indexed() && State() == BusyStep(old(State()), maxBurstDelay)
    {
      burstLengths := burstLengths[currentBurst := burstLengths[currentBurst] + 1];
      var transactionDelay := transactionDelays[currentDelay];
      if transactionDelay > 0 {
        if transactionDelay > maxBurstDelay {
          transactionDelays := transactionDelays + [0];
          currentDelay := currentDelay + 1;
          transactionDelayBuckets := Bump(transactionDelayBuckets, B.ILog2(transactionDelay));
        } else {
          burstDelays := burstDelays + transactionDelay;
        }
        transactionDelays := transactionDelays[currentDelay := 0];
      }
    }

    /**
     * `add_wasted_cycle`: one category counter grows (`Unknown` as no transaction), the open delay
     * grows, and the open burst is settled against it.
     */
    method AddWastedCycle(t: CycleType)
      requires Indexed() && t != Busy
      modifies this`free, this`noTransaction, this`backpressure, this`noData, this`reset
      modifies this`transactionDelays, this`burstLengths, this`currentBurst, this`burstLengthBuckets
      ensures Indexed() && Counts() == CU.Tally(old(Counts()), t)
      ensures State() == WastedStep(old(State()), maxBurstDelay)
    {
      CountWasted(t);
      SettleBurst();
    }

    /** The counter part of `add_wasted_cycle`. */
    method CountWasted(t: CycleType)
      requires t != Busy
      modifies this`free, this`noTransaction, this`backpressure, this`noData, this`reset
      ensures Counts() == CU.Tally(old(Counts()), t)
    {
      match t {
        case Free => free := free + 1;
        case NoTransaction => noTransaction := noTransaction + 1;
        case Backpressure => backpressure := backpressure + 1;
        case NoData => noData := noData + 1;
        case Reset => reset := reset + 1;
        case Unknown => noTransaction := noTransaction + 1;
      }
    }

    /**
     * The list part of `add_wasted_cycle`: the open delay grows; once it exceeds `max_burst_delay`,
     * a burst longer than the pause is closed with the pause taken off its length and counted, and
     * the open burst is 0; otherwise the pause cycle counts toward the burst.
     */
    method SettleBurst()
      requires Indexed()
      modifies this`transactionDelays, this`burstLengths, this`currentBurst, this`burstLengthBuckets
      ensures Indexed() && State() == WastedStep(old(State()), maxBurstDelay)
    {
      var transactionDelay := transactionDelays[currentDelay] + 1;
      transactionDelays := transactionDelays[currentDelay := transactionDelay];
      var burstLength := burstLengths[currentBurst];
      if transactionDelay > maxBurstDelay {
        if burstLength > transactionDelay - 1 {
          var actualLength := burstLength - maxBurstDelay;
          burstLengths := burstLengths[currentBurst := burstLengths[currentBurst] - maxBurstDelay];
          burstLengths := burstLengths + [0];
          currentBurst := currentBurst + 1;
          burstLengthBuckets := Bump(burstLengthBuckets, B.ILog2(actualLength));
        }
        burstLengths := burstLengths[currentBurst := 0];
      } else {
        burstLengths := burstLengths[currentBurst := burstLengths[currentBurst] + 1];
      }
    }

    /**
     * `end`: the open burst and delay are counted when positive and dropped when 0; afterwards every
     * list element is a closed value counted in its bucket.
     */
    method End()
      requires Valid()
      modifies this`burstLengths, this`burstLengthBuckets, this`transactionDelays, this`transactionDelayBuckets
      ensures Finished(transactionDelays, transactionDelayBuckets) && Finished(burstLengths, burstLengthBuckets)
      ensures State() == EndStep(old(State()))
    {
      RunSound(history, maxBurstDelay);
      EndFinished(State(), maxBurstDelay);
      CloseOpen();
    }

    /** The body of `end`. */
    method CloseOpen()
      requires Indexed()
      modifies this`burstLengths, this`burstLengthBuckets, this`transactionDelays, this`transactionDelayBuckets
      ensures State() == EndStep(old(State()))
    {
      var burstLength := burstLengths[currentBurst];
      if burstLength > 0 {
        burstLengthBuckets := Bump(burstLengthBuckets, B.ILog2(burstLength));
      } else {
        burstLengths := burstLengths[..currentBurst];
      }
      var transactionDelay := transactionDelays[currentDelay];
      if transactionDelay > 0 {
        transactionDelayBuckets := Bump(transactionDelayBuckets, B.ILog2(transactionDelay));
      } else {
        transactionDelays := transactionDelays[..currentDelay];
      }
    }
  }

  // ----- the multi-channel statistics -----

  /** `ilog2` never decreases. */
  lemma ILog2Monotone(a: int, b: int)
    requires 1 <= a <= b
    ensures B.ILog2(a) <= B.ILog2(b)
  {
    if B.ILog2(a) > B.ILog2(b) {
      B.Pow2Monotone(B.ILog2(b) + 1, B.ILog2(a));
    }
  }

  /** The bucket of a value in `VecStatistic::get_buckets`: 0 for 0, `ilog2(v) + 1` otherwise. */
  function VecKey(v: int): (k: nat)
    requires v >= 0
    ensures (k == 0 <==> v == 0) && (k > 0 ==> B.Pow2(k - 1) <= v < B.Pow2(k))
  {
    if v == 0 then 0 else B.ILog2(v) + 1
  }

  function VecKeys(values: seq<int>): (r: seq<nat>)
    requires AllAbove(values, -1)
    ensures |r| == |values|
  {
    if |values| == 0 then [] else VecKeys(values[..|values| - 1]) + [VecKey(values[|values| - 1])]
  }

  /** The largest key is the key of the largest value. */
  lemma {:induction false} VecKeysMax(values: seq<int>)
    requires |values| > 0 && AllAbove(values, -1)
    ensures MaxOf(values) >= 0 && MaxOf(VecKeys(values)) == VecKey(MaxOf(values))
    decreases |values|
  {
    AllAboveAt(values, -1);
    if |values| > 1 {
      var init, v := values[..|values| - 1], values[|values| - 1];
      VecKeysMax(init);
      var keys := VecKeys(values);
      assert keys[..|keys| - 1] == VecKeys(init);
      var m := MaxOf(init);
      if v > m {
        VecKeyMonotone(m, v);
      } else {
        VecKeyMonotone(v, m);
      }
    }
  }

  lemma VecKeyMonotone(a: int, b: int)
    requires 0 <= a <= b
    ensures VecKey(a) <= VecKey(b)
  {
    if a > 0 {
      ILog2Monotone(a, b);
    }
  }

  /** `VecStatistic`: the raw values of one multi-channel statistic. */
  class VecStatistic {
    const name: string
    var data: seq<int>

    /** `VecStatistic::new`: no values. */
    constructor (name: string)
      ensures this.name == name && data == []
    {
      this.name := name;
      data := [];
    }

    /** `add`: the value is appended. */
    method Add(value: int)
      modifies this`data
      ensures data == old(data) + [value]
    {
      data := data + [value];
    }

    /** `len`: the number of values. */
    function Len(): (n: nat)
      reads this`data
      ensures n == |data|
    {
      |data|
    }

    /**
     * `get_buckets`: the count of values per bucket, the array grown as far as the largest bucket;
     * a negative value panics in `ilog2`.
     */
    method GetBuckets() returns (r: Outcome<seq<nat>>)
      ensures r.Panics? <==> !AllAbove(data, -1)
      ensures r.Returns? ==> AllAbove(data, -1) && r.value == Tally(VecKeys(data))
    {
      var buckets: seq<nat> := [];
      var i := 0;
      while i < |data|
        invariant 0 <= i <= |data| && AllAbove(data[..i], -1)
        invariant buckets == Tally(VecKeys(data[..i]))
      {
        var v := data[i];
        if v < 0 {
          AllAboveAt(data, -1);
          return Panics;
        }
        var bucket := if v == 0 then 0 else B.ILog2(v) + 1;
        buckets := Bump(buckets, bucket);
        assert data[..i + 1][..i] == data[..i];
        i := i + 1;
      }
      assert data[..i] == data;
      return Returns(buckets);
    }

    /**
     * `buckets_num`: 1 when the largest value is 0, `ilog2(max) + 2` otherwise; `unwrap` panics on
     * no values and `ilog2` on a negative maximum.
     */
    function BucketsNum(): (r: Outcome<int>)
      reads this`data
      ensures r.Panics? <==> |data| == 0 || MaxOf(data) < 0
      ensures r.Returns? ==> r.value >= 1
    {
      if |data| == 0 then Panics
      else if MaxOf(data) == 0 then Returns(1)
      else if MaxOf(data) < 0 then Panics
      else Returns(B.ILog2(MaxOf(data)) + 2)
    }
  }

  /** With values and none negative, `buckets_num` is the length of the `get_buckets` array. */
  lemma BucketsNumIsLength(data: seq<int>)
    requires |data| > 0 && AllAbove(data, -1)
    ensures MaxOf(data) >= 0
    ensures |Tally(VecKeys(data))| == if MaxOf(data) == 0 then 1 else B.ILog2(MaxOf(data)) + 2
  {
    VecKeysMax(data);
    TallyLength(VecKeys(data));
  }

  /** Each `get_buckets` entry counts the values whose key is its index. */
  lemma VecBucketsCount(data: seq<int>, j: nat)
    requires AllAbove(data, -1)
    ensures j < |Tally(VecKeys(data))| ==> Tally(VecKeys(data))[j] == multiset(VecKeys(data))[j]
    ensures j >= |Tally(VecKeys(data))| ==> j !in VecKeys(data)
  {
    TallyCounts(VecKeys(data), j);
  }

  /** The older `MultiChannelBusUsage`, as far as `add_transaction` fills it. */
  class MultiChannelBusUsage {
    const busName: string
    const cmdToCompletion: VecStatistic
    const cmdToFirstData: VecStatistic
    const lastDataToCompletion: VecStatistic
    const transactionDelays: VecStatistic
    var transactionTimes: seq<(int, int)>
    var errorNum: int
    var correctNum: int
    const windowLength: int
    var time: int
    /** Issue time and response of every transaction added so far. */
    ghost var added: seq<(int, string)>

    /**
     * The four statistics are distinct objects with one value per transaction, none of them
     * negative; `error_num` and `correct_num` split the responses.
     */
    ghost predicate Valid()
      reads this, cmdToCompletion, cmdToFirstData, lastDataToCompletion, transactionDelays
    {
      cmdToCompletion != cmdToFirstData && cmdToCompletion != lastDataToCompletion &&
      cmdToCompletion != transactionDelays && cmdToFirstData != lastDataToCompletion &&
      cmdToFirstData != transactionDelays && lastDataToCompletion != transactionDelays &&
      |transactionTimes| == |added| &&
      |cmdToCompletion.data| == |added| && |cmdToFirstData.data| == |added| &&
      |lastDataToCompletion.data| == |added| && |transactionDelays.data| == |added| &&
      AllAbove(cmdToCompletion.data, -1) && AllAbove(cmdToFirstData.data, -1) &&
      AllAbove(lastDataToCompletion.data, -1) && AllAbove(transactionDelays.data, -1) &&
      errorNum == |MultiUsage.ErrorTimes(added)| && correctNum == MultiUsage.OkCount(added)
    }

    /** `MultiChannelBusUsage::new`: four empty statistics, no transactions, time 0. */
    constructor (name: string, windowLength: int)
      ensures Valid() && added == [] && busName == name && this.windowLength == windowLength
      ensures fresh(cmdToCompletion) && fresh(cmdToFirstData) && fresh(lastDataToCompletion) && fresh(transactionDelays)
      ensures cmdToCompletion.data == [] && cmdToFirstData.data == [] && lastDataToCompletion.data == [] && transactionDelays.data == []
      ensures transactionTimes == [] && errorNum == 0 && correctNum == 0 && time == 0
    {
      busName := name;
      cmdToCompletion := new VecStatistic("cmd to completion");
      cmdToFirstData := new VecStatistic("cmd to first data");
      lastDataToCompletion := new VecStatistic("last data to completion");
      transactionDelays := new VecStatistic("transaction_delays");
      transactionTimes := [];
      errorNum, correctNum := 0, 0;
      this.windowLength := windowLength;
      time := 0;
      added := [];
    }

    /**
     * `add_transaction`: half of each `u32` distance (wrapping when an end precedes its start) goes
     * to its statistic, the delay to `transaction_delays`, the response is counted, and the time
     * moves to the response plus the delay.
     */
    method AddTransaction(time: U32Value, respTime: U32Value, lastWrite: U32Value, firstData: U32Value, resp: string, delay: U32Value)
      requires Valid()
      modifies this`transactionTimes, this`errorNum, this`correctNum, this`time, this`added
      modifies cmdToCompletion`data, cmdToFirstData`data, lastDataToCompletion`data, transactionDelays`data
      ensures Valid() && added == old(added) + [(time, resp)]
      ensures cmdToCompletion.data == old(cmdToCompletion.data) + [WrappingSub(respTime, time) / 2]
      ensures cmdToFirstData.data == old(cmdToFirstData.data) + [WrappingSub(firstData, time) / 2]
      ensures lastDataToCompletion.data == old(lastDataToCompletion.data) + [WrappingSub(respTime, lastWrite) / 2]
      ensures transactionDelays.data == old(transactionDelays.data) + [delay]
      ensures MultiUsage.IsOk(resp) ==> correctNum == old(correctNum) + 1 && errorNum == old(errorNum)
      ensures !MultiUsage.IsOk(resp) ==> correctNum == old(correctNum) && errorNum == old(errorNum) + 1
      ensures transactionTimes == old(transactionTimes) + [(time, respTime)]
      ensures this.time == WrappingAdd(respTime, delay)
    {
      AllAboveSnoc(cmdToCompletion.data, WrappingSub(respTime, time) / 2, -1);
      AllAboveSnoc(cmdToFirstData.data, WrappingSub(firstData, time) / 2, -1);
      AllAboveSnoc(lastDataToCompletion.data, WrappingSub(respTime, lastWrite) / 2, -1);
      AllAboveSnoc(transactionDelays.data, delay, -1);
      cmdToCompletion.Add(WrappingSub(respTime, time) / 2);
      cmdToFirstData.Add(WrappingSub(firstData, time) / 2);
      lastDataToCompletion.Add(WrappingSub(respTime, lastWrite) / 2);
      if MultiUsage.IsOk(resp) {
        correctNum := correctNum + 1;
      } else {
        errorNum := errorNum + 1;
      }
      transactionDelays.Add(delay);
      transactionTimes := transactionTimes + [(time, respTime)];
      this.time := WrappingAdd(respTime, delay);
      added := added + [(time, resp)];
      assert added[..|added| - 1] == old(added);
    }
  }

  /** Every transaction is counted once, as correct or as an error. */
  lemma CountsAddUp(u: MultiChannelBusUsage)
    requires u.Valid()
    ensures u.errorNum + u.correctNum == |u.transactionTimes|
  {
    MultiUsage.ErrorsAndCorrect(u.added);
  }

  // ----- the header of the single-channel table -----

  /** The label of delay or burst bucket `i`: `"{2^i}-{2^(i+1) - 1}"`. */
  function RangeLabel(i: nat): string
  {
    NatToString(B.Pow2(i)) + "-" + NatToString(B.Pow2(i + 1) - 1)
  }

  /** The largest element, 0 for none. */
  function MaxLen(lens: seq<nat>): (m: nat)
    ensures forall i :: 0 <= i < |lens| ==> lens[i] <= m
    ensures |lens| > 0 ==> exists i :: 0 <= i < |lens| && lens[i] == m
  {
    if |lens| == 0 then 0
    else
      var m := MaxLen(lens[..|lens| - 1]);
      assert forall i :: 0 <= i < |lens| - 1 ==> lens[..|lens| - 1][i] == lens[i];
      if lens[|lens| - 1] > m then lens[|lens| - 1] else m
  }

  function DelayBucketLens(usages: seq<Lists>): (r: seq<nat>)
    ensures |r| == |usages| && forall i :: 0 <= i < |usages| ==> r[i] == |usages[i].transactionDelayBuckets|
  {
    seq(|usages|, i requires 0 <= i < |usages| => |usages[i].transactionDelayBuckets|)
  }

  function BurstBucketLens(usages: seq<Lists>): (r: seq<nat>)
    ensures |r| == |usages| && forall i :: 0 <= i < |usages| ==> r[i] == |usages[i].burstLengthBuckets|
  {
    seq(|usages|, i requires 0 <= i < |usages| => |usages[i].burstLengthBuckets|)
  }

  function Labels(n: nat): (r: seq<string>)
    ensures |r| == n && forall i :: 0 <= i < n ==> r[i] == RangeLabel(i)
  {
    seq(n, i requires 0 <= i < n => RangeLabel(i))
  }

  const FixedColumns: seq<string> := [
    "bus_name", "busy(%)", "no transaction(%)", "backpressure(%)", "no data to send(%)", "free(%)",
    "delays between transactions "]

  /**
   * The header layout: the fixed columns, then `delays` range labels, "burst lengths" and `bursts`
   * range labels.
   */
  predicate HeaderShaped(header: seq<string>, delays: nat, bursts: nat)
  {
    |header| == |FixedColumns| + delays + 1 + bursts &&
    header[..|FixedColumns|] == FixedColumns &&
    (forall i :: 0 <= i < delays ==> header[|FixedColumns| + i] == RangeLabel(i)) &&
    header[|FixedColumns| + delays] == "burst lengths" &&
    (forall i :: 0 <= i < bursts ==> header[|FixedColumns| + delays + 1 + i] == RangeLabel(i))
  }

  lemma HeaderLayout(delays: nat, bursts: nat)
    ensures HeaderShaped(FixedColumns + Labels(delays) + ["burst lengths"] + Labels(bursts), delays, bursts)
  {
    var header := FixedColumns + Labels(delays) + ["burst lengths"] + Labels(bursts);
    var k := |FixedColumns|;
    forall i | 0 <= i < delays
      ensures header[k + i] == RangeLabel(i)
    {
      assert header[k + i] == Labels(delays)[i];
    }
    forall i | 0 <= i < bursts
      ensures header[k + delays + 1 + i] == RangeLabel(i)
    {
      assert header[k + delays + 1 + i] == Labels(bursts)[i];
    }
  }

  /** The widest bucket array over the usages is one of theirs, and no usage's is wider. */
  lemma WidestDelays(usages: seq<Lists>)
    requires |usages| > 0
    ensures forall u :: u in usages ==> |u.transactionDelayBuckets| <= MaxLen(DelayBucketLens(usages))
    ensures exists u :: u in usages && |u.transactionDelayBuckets| == MaxLen(DelayBucketLens(usages))
  {
    var lens := DelayBucketLens(usages);
    var i :| 0 <= i < |lens| && lens[i] == MaxLen(lens);
    assert usages[i] in usages;
  }

  lemma WidestBursts(usages: seq<Lists>)
    requires |usages| > 0
    ensures forall u :: u in usages ==> |u.burstLengthBuckets| <= MaxLen(BurstBucketLens(usages))
    ensures exists u :: u in usages && |u.burstLengthBuckets| == MaxLen(BurstBucketLens(usages))
  {
    var lens := BurstBucketLens(usages);
    var i :| 0 <= i < |lens| && lens[i] == MaxLen(lens);
    assert usages[i] in usages;
  }

  /**
   * `get_header`: the fixed columns, one label per delay bucket, "burst lengths" and one label per
   * burst bucket, as many buckets as the widest usage has; `unwrap` panics on no usages.
   */
  function GetHeader(usages: seq<Lists>): (r: Outcome<(seq<string>, nat, nat)>)
    ensures r.Panics? <==> |usages| == 0
    ensures r.Returns? ==> HeaderShaped(r.value.0, r.value.1, r.value.2)
    ensures r.Returns? ==> forall u :: u in usages ==> |u.transactionDelayBuckets| <= r.value.1 && |u.burstLengthBuckets| <= r.value.2
    ensures r.Returns? ==> exists u :: u in usages && |u.transactionDelayBuckets| == r.value.1
    ensures r.Returns? ==> exists u :: u in usages && |u.burstLengthBuckets| == r.value.2
  {
    if |usages| == 0 then Panics
    else
      var delays := MaxLen(DelayBucketLens(usages));
      var bursts := MaxLen(BurstBucketLens(usages));
      HeaderLayout(delays, bursts);
      WidestDelays(usages);
      WidestBursts(usages);
      Returns((FixedColumns + Labels(delays) + ["burst lengths"] + Labels(bursts), delays, bursts))
  }
}
