// Time-stamped traces and the sample lookups the matching engines use.
module Traces {
  import opened Wrappers

  /** A signal as a list of (time, value) samples, earliest first. */
  type Trace<V> = seq<(int, V)>

  /** The samples are in strictly increasing time order, as the waveform reader delivers them. */
  predicate TimeOrdered<V>(tr: Trace<V>)
  {
    forall a, b :: 0 <= a < b < |tr| ==> tr[a].0 < tr[b].0
  }

  predicate StrictlyIncreasing(s: seq<int>)
  {
    forall i, j :: 0 <= i < j < |s| ==> s[i] < s[j]
  }

  /**
   * The value of the LAST sample in list order whose time is at or before `t`: Python's
   * `next(filter(lambda v: v[0] <= t, reversed_list))`, and the waveform reader's
   * "value in effect at `t`" (`get_offset`).
   */
  function LatestAtOrBefore<V>(tr: Trace<V>, t: int): Option<V>
  {
    if |tr| == 0 then None
    else if tr[|tr| - 1].0 <= t then Some(tr[|tr| - 1].1)
    else LatestAtOrBefore(tr[..|tr| - 1], t)
  }

  /** The latest lookup finds nothing exactly when every sample is later than `t`, and otherwise the last sample at or before `t`. */
  lemma {:induction false} LatestAtOrBeforeSpec<V>(tr: Trace<V>, t: int)
    ensures LatestAtOrBefore(tr, t).None? <==> forall i :: 0 <= i < |tr| ==> tr[i].0 > t
    ensures LatestAtOrBefore(tr, t).Some? ==>
              exists i :: 0 <= i < |tr| && tr[i].0 <= t && tr[i].1 == LatestAtOrBefore(tr, t).value &&
                forall j :: i < j < |tr| ==> tr[j].0 > t
  {
    if |tr| > 0 && tr[|tr| - 1].0 > t {
      var init := tr[..|tr| - 1];
      LatestAtOrBeforeSpec(init, t);
      assert forall i :: 0 <= i < |init| ==> init[i] == tr[i];
    }
  }

  /**
   * The value of the FIRST sample in list order whose time is at or before `t`: Python's
   * `next(filter(lambda v: v[0] <= t, list), None)` on a list that was not reversed.
   */
  function EarliestAtOrBefore<V>(tr: Trace<V>, t: int): Option<V>
  {
    if |tr| == 0 then None
    else if tr[0].0 <= t then Some(tr[0].1)
    else EarliestAtOrBefore(tr[1..], t)
  }

  /** The earliest lookup finds nothing exactly when every sample is later than `t`, and otherwise the first sample at or before `t`. */
  lemma {:induction false} EarliestAtOrBeforeSpec<V>(tr: Trace<V>, t: int)
    ensures EarliestAtOrBefore(tr, t).None? <==> forall i :: 0 <= i < |tr| ==> tr[i].0 > t
    ensures EarliestAtOrBefore(tr, t).Some? ==>
              exists i :: 0 <= i < |tr| && tr[i].0 <= t && tr[i].1 == EarliestAtOrBefore(tr, t).value &&
                forall j :: 0 <= j < i ==> tr[j].0 > t
  {
    if |tr| > 0 && tr[0].0 > t {
      var rest := tr[1..];
      EarliestAtOrBeforeSpec(rest, t);
      assert forall i :: 1 <= i < |tr| ==> rest[i - 1] == tr[i];
      if EarliestAtOrBefore(tr, t).Some? {
        var k :| 0 <= k < |rest| && rest[k].0 <= t && rest[k].1 == EarliestAtOrBefore(tr, t).value &&
                 forall j :: 0 <= j < k ==> rest[j].0 > t;
        assert tr[k + 1] == rest[k];
      }
    }
  }

  /** On a time-sorted trace the earliest lookup ignores every sample but the first. */
  lemma EarliestIsFirstSample<V>(tr: Trace<V>, t: int)
    requires |tr| > 0 && tr[0].0 <= t
    ensures EarliestAtOrBefore(tr, t) == Some(tr[0].1)
  {
  }

  /** On a time-sorted trace the latest lookup is the sample in effect at `t`. */
  lemma {:induction false} LatestIsInEffect<V>(tr: Trace<V>, t: int, i: int)
    requires forall a, b :: 0 <= a < b < |tr| ==> tr[a].0 < tr[b].0
    requires 0 <= i < |tr| && tr[i].0 <= t && (i + 1 == |tr| || tr[i + 1].0 > t)
    ensures LatestAtOrBefore(tr, t) == Some(tr[i].1)
  {
    if i + 1 < |tr| {
      assert tr[|tr| - 1].0 > t;
      var init := tr[..|tr| - 1];
      assert forall a, b :: 0 <= a < b < |init| ==> init[a].0 < init[b].0;
      LatestIsInEffect(init, t, i);
    }
  }

  /** The time following event `k`, or `dflt` after the last event (a peek with a default). */
  function PeekAfter(s: seq<int>, k: int, dflt: int): (r: int)
    requires 0 <= k < |s|
    ensures k + 1 < |s| ==> r == s[k + 1]
    ensures k + 1 == |s| ==> r == dflt
  {
    if k + 1 < |s| then s[k + 1] else dflt
  }

  /** No element of `events` lies in `[from, to)`. */
  predicate NoneWithin(events: seq<int>, from: int, to: int)
  {
    forall m :: 0 <= m < |events| ==> !(from <= events[m] < to)
  }

  /** Rust's `u32::saturating_sub(1)`: the index just before `t`, or 0. */
  function SatPred(t: int): (r: int)
    ensures t > 0 ==> r + 1 == t
    ensures t <= 0 ==> r == 0
  {
    if t <= 0 then 0 else t - 1
  }
}
