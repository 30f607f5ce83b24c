// `BucketsStatistic` of libbusperf: a list of periods, grouped by duration and by logarithmic
// bucket (bucket 0 holds duration 0, bucket b > 0 the durations 2^(b-1) .. 2^b - 1, and bucket -b
// their negations).
module Buckets {
  import opened Wrappers
  import opened Text
  import CycleUsage

  type Period = CycleUsage.Period

  function Pow2(n: nat): (r: nat)
    ensures r >= 1
  {
    if n == 0 then 1 else 2 * Pow2(n - 1)
  }

  lemma {:induction false} Pow2Monotone(a: nat, b: nat)
    requires a <= b
    ensures Pow2(a) <= Pow2(b)
    decreases b
  {
    if a < b {
      Pow2Monotone(a, b - 1);
    }
  }

  /** `ilog2`: the position of the highest set bit of a positive number. */
  function ILog2(v: int): (r: nat)
    requires v >= 1
    ensures Pow2(r) <= v < Pow2(r + 1)
    decreases v
  {
    if v < 2 then 0 else ILog2(v / 2) + 1
  }

  /** Only one exponent brackets a number between two neighbouring powers of two. */
  lemma ExponentUnique(v: int, a: nat, b: nat)
    requires Pow2(a) <= v < Pow2(a + 1) && Pow2(b) <= v < Pow2(b + 1)
    ensures a == b
  {
    if a < b {
      Pow2Monotone(a + 1, b);
    } else if b < a {
      Pow2Monotone(b + 1, a);
    }
  }

  /** The durations that belong to bucket `b`. */
  predicate InBucket(cycles: int, b: int)
  {
    if b == 0 then cycles == 0
    else if b > 0 then Pow2(b - 1) <= cycles < Pow2(b)
    else Pow2(-b - 1) <= -cycles < Pow2(-b)
  }

  /** `BucketsStatistic::bucket_num`: 0 for 0, `ilog2(v) + 1` for positive and `-(ilog2|v| + 1)` for negative `v`. */
  function BucketNum(cycles: int): (r: int)
    ensures r == 0 <==> cycles == 0
    ensures r > 0 <==> cycles > 0
    ensures InBucket(cycles, r)
  {
    if cycles == 0 then 0
    else if cycles > 0 then ILog2(cycles) + 1
    else -(ILog2(-cycles) + 1)
  }

  /** Every duration lies in exactly one bucket, the one `bucket_num` names. */
  lemma BucketNumExact(cycles: int, b: int)
    ensures BucketNum(cycles) == b <==> InBucket(cycles, b)
  {
    var r := BucketNum(cycles);
    if InBucket(cycles, b) && b != r {
      if b > 0 {
        ExponentUnique(cycles, b - 1, r - 1);
      } else if b < 0 {
        ExponentUnique(-cycles, -b - 1, -r - 1);
      }
    }
  }

  /** What `BucketsStatistic` holds: a name and borrowed periods. */
  datatype BucketsStatistic = BucketsStatistic(name: string, data: seq<Period>, clkToTime: int)

  /** The periods of `data` whose key (`key` applied to the duration) is `k`, in their order. */
  function Select(data: seq<Period>, key: int -> int, k: int): (r: seq<Period>)
    ensures |r| <= |data|
    ensures forall p :: p in r <==> p in data && key(p.duration) == k
  {
    if |data| == 0 then []
    else
      var rest := Select(data[..|data| - 1], key, k);
      var p := data[|data| - 1];
      assert forall q :: q in data <==> q in data[..|data| - 1] || q == p;
      if key(p.duration) == k then rest + [p] else rest
  }

  lemma {:induction false} SelectAppend(a: seq<Period>, b: seq<Period>, key: int -> int, k: int)
    ensures Select(a + b, key, k) == Select(a, key, k) + Select(b, key, k)
    decreases |b|
  {
    if |b| > 0 {
      var b' := b[..|b| - 1];
      assert (a + b)[..|a + b| - 1] == a + b';
      SelectAppend(a, b', key, k);
    } else {
      assert a + b == a;
    }
  }

  /** The key of every period, in order. */
  function Keys(data: seq<Period>, key: int -> int): (r: seq<int>)
    ensures |r| == |data| && forall i :: 0 <= i < |data| ==> r[i] == key(data[i].duration)
  {
    if |data| == 0 then [] else Keys(data[..|data| - 1], key) + [key(data[|data| - 1].duration)]
  }

  /** As many periods are selected for `k` as there are keys equal to `k`. */
  lemma {:induction false} SelectCount(data: seq<Period>, key: int -> int, k: int)
    ensures |Select(data, key, k)| == multiset(Keys(data, key))[k]
    decreases |data|
  {
    if |data| > 0 {
      SelectCount(data[..|data| - 1], key, k);
      assert Keys(data, key) == Keys(data[..|data| - 1], key) + [key(data[|data| - 1].duration)];
    }
  }

  function Identity(v: int): int { v }

  /** `get_data_of_value`: the periods whose duration is `value`, in order. */
  function DataOfValue(stat: BucketsStatistic, value: int): (r: seq<Period>)
    ensures forall p :: p in r <==> p in stat.data && p.duration == value
  {
    Select(stat.data, Identity, value)
  }

  /** `get_data_for_bucket`: the periods whose duration lies in bucket `b`, in order. */
  function DataForBucket(stat: BucketsStatistic, b: int): (r: seq<Period>)
    ensures forall p :: p in r <==> p in stat.data && InBucket(p.duration, b)
  {
    var r := Select(stat.data, BucketNum, b);
    forall p | p in stat.data ensures BucketNum(p.duration) == b <==> InBucket(p.duration, b) {
      BucketNumExact(p.duration, b);
    }
    r
  }

  /** The sum of all counts of a map. */
  ghost function MapSum(m: map<int, nat>): nat
    decreases m.Keys
  {
    if m.Keys == {} then 0
    else
      var k := SomeKey(m);
      m[k] + MapSum(m - {k})
  }

  lemma NonEmptyHasMember(s: set<int>)
    requires s != {}
    ensures exists x :: x in s
  {
    if forall x :: x !in s {
      assert false;
    }
  }

  ghost function SomeKey(m: map<int, nat>): (k: int)
    requires m.Keys != {}
    ensures k in m
  {
    NonEmptyHasMember(m.Keys);
    var k :| k in m.Keys;
    k
  }

  /** The sum does not depend on which key is taken first. */
  lemma {:induction false} MapSumRemove(m: map<int, nat>, k: int)
    requires k in m
    ensures MapSum(m) == m[k] + MapSum(m - {k})
    decreases m.Keys
  {
    var j :| j in m.Keys && MapSum(m) == m[j] + MapSum(m - {j});
    if j != k {
      MapSumRemove(m - {j}, k);
      MapSumRemove(m - {k}, j);
      assert m - {j} - {k} == m - {k} - {j};
    }
  }

  function Bump(m: map<int, nat>, k: int): map<int, nat>
  {
    m[k := if k in m then m[k] + 1 else 1]
  }

  /** The counting map of a list of keys. */
  ghost predicate Counts(m: map<int, nat>, keys: seq<int>)
  {
    (forall k :: k in m <==> k in keys) &&
    (forall k :: k in m ==> m[k] == multiset(keys)[k])
  }

  lemma CountsSnoc(m: map<int, nat>, keys: seq<int>, k: int)
    requires Counts(m, keys)
    ensures Counts(Bump(m, k), keys + [k])
  {
    var m', keys' := Bump(m, k), keys + [k];
    assert multiset(keys') == multiset(keys) + multiset{k};
    forall j ensures j in m' <==> j in keys' {
      assert j in keys' <==> j in keys || j == k;
    }
  }

  lemma MapSumBump(m: map<int, nat>, k: int)
    ensures MapSum(Bump(m, k)) == MapSum(m) + 1
  {
    var m' := m[k := if k in m then m[k] + 1 else 1];
    MapSumRemove(m', k);
    assert m' - {k} == m - {k};
    if k in m {
      MapSumRemove(m, k);
    } else {
      assert m - {k} == m;
    }
  }

  /**
   * The counting loop of `get_data` and `get_buckets`: how often each key occurs. Every key has a
   * positive count and the counts add up to the number of keys.
   */
  method Histogram(keys: seq<int>) returns (m: map<int, nat>)
    ensures Counts(m, keys)
    ensures MapSum(m) == |keys|
  {
    m := map[];
    for i := 0 to |keys|
      invariant Counts(m, keys[..i])
      invariant MapSum(m) == i
    {
      var k := keys[i];
      assert keys[..i + 1] == keys[..i] + [k];
      CountsSnoc(m, keys[..i], k);
      MapSumBump(m, k);
      if k in m {
        m := m[k := m[k] + 1];
      } else {
        m := m[k := 1];
      }
    }
    assert keys[..|keys|] == keys;
  }

  /** `get_data`: for each duration that occurs, how many periods have it; the counts add up to the number of periods. */
  method GetData(stat: BucketsStatistic) returns (counts: map<int, nat>)
    ensures forall d :: d in counts <==> exists p :: p in stat.data && p.duration == d
    ensures forall d :: d in counts ==> counts[d] == |DataOfValue(stat, d)|
    ensures MapSum(counts) == |stat.data|
  {
    var keys := Keys(stat.data, Identity);
    counts := Histogram(keys);
    forall d ensures d in counts <==> exists p :: p in stat.data && p.duration == d {
      if d in counts {
        var i :| 0 <= i < |keys| && keys[i] == d;
        assert stat.data[i] in stat.data;
      }
    }
    forall d | d in counts ensures counts[d] == |DataOfValue(stat, d)| {
      SelectCount(stat.data, Identity, d);
    }
  }

  /** The buckets the periods fall into. */
  ghost function BucketSet(data: seq<Period>): set<int>
  {
    set p | p in data :: BucketNum(p.duration)
  }

  lemma BucketSetKeys(data: seq<Period>)
    ensures forall b :: b in BucketSet(data) <==> b in Keys(data, BucketNum)
  {
    var keys := Keys(data, BucketNum);
    forall b ensures b in BucketSet(data) <==> b in keys {
      if b in keys {
        var i :| 0 <= i < |keys| && keys[i] == b;
        assert data[i] in data;
      }
    }
  }

  /** `get_buckets`: for each bucket that occurs, how many periods fall into it; the counts add up to the number of periods. */
  method GetBuckets(stat: BucketsStatistic) returns (counts: map<int, nat>)
    ensures forall b :: b in counts <==> b in BucketSet(stat.data)
    ensures forall b :: b in counts ==> counts[b] == |DataForBucket(stat, b)|
    ensures MapSum(counts) == |stat.data|
  {
    counts := Histogram(Keys(stat.data, BucketNum));
    BucketSetKeys(stat.data);
    forall b | b in counts ensures counts[b] == |DataForBucket(stat, b)| {
      SelectCount(stat.data, BucketNum, b);
    }
  }

  /** `buckets_num`: the number of distinct buckets the periods fall into. */
  method BucketsNum(stat: BucketsStatistic) returns (n: nat)
    ensures n == |BucketSet(stat.data)|
    ensures n == 0 <==> |stat.data| == 0
  {
    var counts := GetBuckets(stat);
    n := |counts|;
    assert forall b :: b in counts.Keys <==> b in BucketSet(stat.data);
    assert counts.Keys == BucketSet(stat.data);
    if |stat.data| > 0 {
      assert BucketNum(stat.data[0].duration) in BucketSet(stat.data);
    }
  }

  /** The shortest and the longest duration of a non-empty list. */
  function MinMax(data: seq<Period>): (r: (int, int))
    requires |data| > 0
    ensures exists i :: 0 <= i < |data| && data[i].duration == r.0
    ensures exists i :: 0 <= i < |data| && data[i].duration == r.1
    ensures forall i :: 0 <= i < |data| ==> r.0 <= data[i].duration <= r.1
  {
    var d := data[|data| - 1].duration;
    if |data| == 1 then (d, d)
    else
      var (lo, hi) := MinMax(data[..|data| - 1]);
      (if d < lo then d else lo, if d > hi then d else hi)
  }

  /** `display`: the duration range, or that there is no data. */
  function Display(stat: BucketsStatistic): (r: string)
  {
    if |stat.data| == 0 then stat.name + ": no data"
    else
      var (lo, hi) := MinMax(stat.data);
      stat.name + ": " + IntToString(lo) + "-" + IntToString(hi) + " clock cycles"
  }

  /** "no data" is displayed exactly when there are no periods. */
  lemma DisplayNoData(stat: BucketsStatistic)
    ensures Display(stat) == stat.name + ": no data" <==> |stat.data| == 0
  {
    var r := Display(stat);
    if |stat.data| > 0 {
      assert r[|r| - 1] == 's';
    }
  }
}
