// The cursors the Rust AXI analyzer (src/analyze/analyzer/axi_analyzer.rs) runs over a waveform: the
// reset-cycle count, the rising-edge iterator over the clock, and the iterator that yields the clock
// edges at which a ready/valid handshake completes. A signal is the list of its value changes.
module AxiIterators {
  import opened Wrappers
  import opened Traces
  import opened Bus

  // ---------------------------------------------------------------- count_reset

  /** The changes strictly inside `(start, end)`, in order. */
  function Inside(cs: Trace<SignalValue>, start: int, end: int): (r: Trace<SignalValue>)
    ensures forall k :: 0 <= k < |r| ==> start < r[k].0 < end
  {
    if |cs| == 0 then []
    else (if start < cs[0].0 < end then [cs[0]] else []) + Inside(cs[1..], start, end)
  }

  /** `r` plus the total, or a panic when the total panics. */
  function Plus(r: int, o: Outcome<int>): Outcome<int>
  {
    match o
    case Panics => Panics
    case Returns(t) => Returns(r + t)
  }

  /**
   * The reset time of `cs` before halving: an active change moves `last` to its time, any other
   * change adds the time since `last`; a change whose type test panics makes the whole count panic.
   */
  function ResetTotal(cs: Trace<SignalValue>, active: ValueType, last: int): Outcome<int>
  {
    if |cs| == 0 then Returns(0)
    else match IsValueOfType(cs[0].1, active)
      case Panics => Panics
      case Returns(true) => ResetTotal(cs[1..], active, cs[0].0)
      case Returns(false) => Plus(cs[0].0 - last, ResetTotal(cs[1..], active, last))
  }

  /**
   * `count_reset`: over the changes strictly between `start` and `end`, sum from the last active
   * change (initially `start`) to each other change, then halve (two time-table entries a cycle).
   */
  method CountReset(rst: Trace<SignalValue>, active: ValueType, start: int, end: int) returns (r: Outcome<int>)
    requires TimeOrdered(rst)
    ensures r == Halved(ResetTotal(Inside(rst, start, end), active, start))
    ensures r.Returns? ==> r.value >= 0
  {
    InsideOrdered(rst, start, end);
    r := SumResets(Inside(rst, start, end), active, start);
  }

  /** The loop of `count_reset` over the changes already cut to the interval, all later than `start`. */
  method SumResets(cs: Trace<SignalValue>, active: ValueType, start: int) returns (r: Outcome<int>)
    requires TimeOrdered(cs) && forall k :: 0 <= k < |cs| ==> start < cs[k].0
    ensures r == Halved(ResetTotal(cs, active, start))
    ensures r.Returns? ==> r.value >= 0
  {
    ghost var total := ResetTotal(cs, active, start);
    var last, reset := start, 0;
    var k := 0;
    while k < |cs|
      invariant 0 <= k <= |cs| && reset >= 0
      invariant k < |cs| ==> last < cs[k].0
      invariant Plus(reset, ResetTotal(cs[k..], active, last)) == total
    {
      var time := cs[k].0;
      assert k + 1 < |cs| ==> time < cs[k + 1].0;
      var test := IsValueOfType(cs[k].1, active);
      if test.Panics? {
        ResetPanics(cs, k, active, last, reset);
        return Panics;
      }
      var last', reset' := last, reset + (time - last);
      if test.value {
        last', reset' := time, reset;
      }
      ResetStep(cs, k, active, last, reset, last', reset', total);
      last, reset := last', reset';
      k := k + 1;
    }
    assert cs[k..] == [];
    return Returns(reset / 2);
  }

  /** Half a total, or a panic. */
  function Halved(o: Outcome<int>): Outcome<int>
  {
    match o
    case Panics => Panics
    case Returns(t) => Returns(t / 2)
  }

  /** One change of the loop in `CountReset` keeps the running sum plus the rest's total fixed. */
  lemma ResetStep(cs: Trace<SignalValue>, k: int, active: ValueType, last: int, reset: int,
                  last': int, reset': int, total: Outcome<int>)
    requires 0 <= k < |cs| && IsValueOfType(cs[k].1, active).Returns?
    requires Plus(reset, ResetTotal(cs[k..], active, last)) == total
    requires if IsValueOfType(cs[k].1, active).value then last' == cs[k].0 && reset' == reset
             else last' == last && reset' == reset + (cs[k].0 - last)
    ensures Plus(reset', ResetTotal(cs[k + 1..], active, last')) == total
  {
    assert cs[k..][0] == cs[k] && cs[k..][1..] == cs[k + 1..];
  }

  /** A change whose type test panics makes the remaining total panic. */
  lemma ResetPanics(cs: Trace<SignalValue>, k: int, active: ValueType, last: int, reset: int)
    requires 0 <= k < |cs| && IsValueOfType(cs[k].1, active).Panics?
    ensures Plus(reset, ResetTotal(cs[k..], active, last)) == Panics
  {
    assert cs[k..][0] == cs[k];
  }

  /** No two consecutive changes are both inactive (and none panics): reset and release alternate. */
  ghost predicate Alternating(cs: Trace<SignalValue>, active: ValueType)
  {
    (forall k :: 0 <= k < |cs| ==> IsValueOfType(cs[k].1, active).Returns?) &&
    forall k :: 0 <= k < |cs| - 1 ==>
      IsValueOfType(cs[k].1, active) == Returns(true) || IsValueOfType(cs[k + 1].1, active) == Returns(true)
  }

  /**
   * When the changes after `last` and before `end` alternate between active and inactive, the
   * reset time counted is never negative and never exceeds the time from `last` to `end`.
   */
  lemma {:induction false} ResetTotalBounded(cs: Trace<SignalValue>, active: ValueType, last: int, end: int)
    requires TimeOrdered(cs) && Alternating(cs, active)
    requires forall k :: 0 <= k < |cs| ==> last < cs[k].0 < end
    ensures ResetTotal(cs, active, last).Returns?
    ensures 0 <= ResetTotal(cs, active, last).value <= (if |cs| == 0 then 0 else end - last)
  {
    if |cs| > 0 {
      var rest := cs[1..];
      assert Alternating(rest, active) by {
        forall k | 0 <= k < |rest| - 1 ensures
          IsValueOfType(rest[k].1, active) == Returns(true) || IsValueOfType(rest[k + 1].1, active) == Returns(true)
        {
          assert rest[k] == cs[k + 1] && rest[k + 1] == cs[k + 2];
        }
      }
      if IsValueOfType(cs[0].1, active) == Returns(true) {
        ResetTotalBounded(rest, active, cs[0].0, end);
      } else if |rest| == 0 {
      } else {
        assert IsValueOfType(rest[0].1, active) == Returns(true);
        var rest2 := rest[1..];
        assert Alternating(rest2, active) by {
          forall k | 0 <= k < |rest2| - 1 ensures
            IsValueOfType(rest2[k].1, active) == Returns(true) || IsValueOfType(rest2[k + 1].1, active) == Returns(true)
          {
            assert rest2[k] == cs[k + 2] && rest2[k + 1] == cs[k + 3];
          }
        }
        ResetTotalBounded(rest2, active, rest[0].0, end);
        assert ResetTotal(rest, active, last) == ResetTotal(rest2, active, rest[0].0);
        assert cs[0].0 < rest[0].0;
      }
    }
  }

  /** With alternating changes, `count_reset` counts at most half the interval's time-table entries. */
  lemma CountResetBounded(rst: Trace<SignalValue>, active: ValueType, start: int, end: int)
    requires TimeOrdered(rst) && Alternating(Inside(rst, start, end), active) && start <= end
    ensures ResetTotal(Inside(rst, start, end), active, start).Returns?
    ensures 0 <= ResetTotal(Inside(rst, start, end), active, start).value / 2 <= (end - start) / 2
  {
    var cs := Inside(rst, start, end);
    assert TimeOrdered(cs) by {
      InsideOrdered(rst, start, end);
    }
    ResetTotalBounded(cs, active, start, end);
  }

  /** A change inside the window is kept, and only such changes are. */
  lemma {:induction false} InsideMembers(cs: Trace<SignalValue>, start: int, end: int)
    ensures forall c :: c in Inside(cs, start, end) <==> c in cs && start < c.0 < end
  {
    if |cs| > 0 {
      InsideMembers(cs[1..], start, end);
      assert cs == [cs[0]] + cs[1..];
    }
  }

  /** Every kept change is later than a bound all the changes exceed. */
  lemma {:induction false} InsideAfter(cs: Trace<SignalValue>, start: int, end: int, bound: int)
    requires forall k :: 0 <= k < |cs| ==> bound < cs[k].0
    ensures forall k :: 0 <= k < |Inside(cs, start, end)| ==> bound < Inside(cs, start, end)[k].0
  {
    if |cs| > 0 {
      InsideAfter(cs[1..], start, end, bound);
    }
  }

  lemma {:induction false} InsideOrdered(cs: Trace<SignalValue>, start: int, end: int)
    requires TimeOrdered(cs)
    ensures TimeOrdered(Inside(cs, start, end))
  {
    if |cs| > 0 {
      var rest := cs[1..];
      assert TimeOrdered(rest) by {
        forall a, b | 0 <= a < b < |rest| ensures rest[a].0 < rest[b].0 { assert rest[a] == cs[a + 1] && rest[b] == cs[b + 1]; }
      }
      InsideOrdered(rest, start, end);
      var tail := Inside(rest, start, end);
      InsideAfter(rest, start, end, cs[0].0);
      if start < cs[0].0 < end {
        var all := [cs[0]] + tail;
        forall a, b | 0 <= a < b < |all| ensures all[a].0 < all[b].0 {
          assert all[b] == tail[b - 1];
          if a > 0 { assert all[a] == tail[a - 1]; }
        }
      }
    }
  }

  // ---------------------------------------------------------------- RisingSignalIterator

  /**
   * The rising edges the iterator yields from change `pos` on. Changes are taken in pairs: a change
   * to 0 followed by a change to 1 is an edge at the second one's time; a change to 0 followed by
   * anything else consumes both; any other change is skipped alone.
   */
  function Edges(ch: Trace<SignalValue>, pos: nat): seq<int>
    decreases |ch| - pos
  {
    if pos >= |ch| then []
    else if GetValue(ch[pos].1) == Some(V0) && pos + 1 < |ch| then
      (if GetValue(ch[pos + 1].1) == Some(V1) then [ch[pos + 1].0] else []) + Edges(ch, pos + 2)
    else Edges(ch, pos + 1)
  }

  /** The times of the changes to 1 from change `k` on. */
  function HighTimes(ch: Trace<SignalValue>, k: nat): seq<int>
    decreases |ch| - k
  {
    if k >= |ch| then []
    else (if GetValue(ch[k].1) == Some(V1) then [ch[k].0] else []) + HighTimes(ch, k + 1)
  }

  /** Every edge is the time of a change to 1 after `pos`. */
  lemma {:induction false} EdgesAreHighTimes(ch: Trace<SignalValue>, pos: nat)
    ensures forall t :: t in Edges(ch, pos) ==> t in HighTimes(ch, pos + 1)
    decreases |ch| - pos
  {
    if pos < |ch| {
      if GetValue(ch[pos].1) == Some(V0) && pos + 1 < |ch| {
        EdgesAreHighTimes(ch, pos + 2);
        assert HighTimes(ch, pos + 1) ==
          (if GetValue(ch[pos + 1].1) == Some(V1) then [ch[pos + 1].0] else []) + HighTimes(ch, pos + 2);
      } else {
        EdgesAreHighTimes(ch, pos + 1);
        if pos + 1 < |ch| {
          HighTimesLater(ch, pos + 1);
        }
      }
    }
  }

  lemma HighTimesLater(ch: Trace<SignalValue>, k: nat)
    requires k < |ch|
    ensures forall t :: t in HighTimes(ch, k + 1) ==> t in HighTimes(ch, k)
  {
  }

  /** A clock: every change is a one-bit binary level, and consecutive changes differ. */
  ghost predicate Clock(ch: Trace<SignalValue>)
  {
    (forall k :: 0 <= k < |ch| ==> GetValue(ch[k].1).Some? && ch[k].1.Binary?) &&
    forall k :: 0 <= k < |ch| - 1 ==> GetValue(ch[k].1) != GetValue(ch[k + 1].1)
  }

  /** On a clock a change is to 0 exactly when the following change is to 1. */
  lemma ClockStep(ch: Trace<SignalValue>, k: nat)
    requires Clock(ch) && k + 1 < |ch|
    ensures GetValue(ch[k].1) == Some(V0) <==> GetValue(ch[k + 1].1) == Some(V1)
  {
    assert GetValue(ch[k].1) != GetValue(ch[k + 1].1);
  }

  /** A change that is not to 1 contributes no time. */
  lemma HighTimesSkip(ch: Trace<SignalValue>, k: nat)
    requires k < |ch| && GetValue(ch[k].1) != Some(V1)
    ensures HighTimes(ch, k) == HighTimes(ch, k + 1)
  {
    assert [] + HighTimes(ch, k + 1) == HighTimes(ch, k + 1);
  }

  /** On a clock the edges are exactly the changes to 1 after the first change looked at. */
  lemma {:induction false} ClockEdges(ch: Trace<SignalValue>, pos: nat)
    requires Clock(ch)
    ensures Edges(ch, pos) == HighTimes(ch, pos + 1)
    decreases |ch| - pos
  {
    if pos + 1 < |ch| {
      ClockStep(ch, pos);
      if GetValue(ch[pos].1) == Some(V0) {
        ClockEdges(ch, pos + 2);
        if pos + 2 < |ch| {
          ClockStep(ch, pos + 1);
          HighTimesSkip(ch, pos + 2);
        }
      } else {
        ClockEdges(ch, pos + 1);
        HighTimesSkip(ch, pos + 1);
      }
    }
  }

  /** Every edge from `pos` on is later than a bound every change from `pos` on exceeds. */
  lemma {:induction false} EdgesAfter(ch: Trace<SignalValue>, pos: nat, bound: int)
    requires forall k :: pos <= k < |ch| ==> ch[k].0 > bound
    ensures forall i :: 0 <= i < |Edges(ch, pos)| ==> Edges(ch, pos)[i] > bound
    decreases |ch| - pos
  {
    if pos < |ch| {
      if GetValue(ch[pos].1) == Some(V0) && pos + 1 < |ch| {
        EdgesAfter(ch, pos + 2, bound);
      } else {
        EdgesAfter(ch, pos + 1, bound);
      }
    }
  }

  /** On time-ordered changes the edges come out in strictly increasing time order. */
  lemma {:induction false} EdgesIncreasing(ch: Trace<SignalValue>, pos: nat)
    requires TimeOrdered(ch)
    ensures StrictlyIncreasing(Edges(ch, pos))
    decreases |ch| - pos
  {
    if pos < |ch| {
      if GetValue(ch[pos].1) == Some(V0) && pos + 1 < |ch| {
        EdgesIncreasing(ch, pos + 2);
        EdgesAfter(ch, pos + 2, ch[pos + 1].0);
      } else {
        EdgesIncreasing(ch, pos + 1);
      }
    }
  }

  /** `RisingSignalIterator`: the clock's rising edges, with room to put one edge back. */
  class RisingSignalIterator {
    const changes: Trace<SignalValue>
    var pos: nat
    var peeked: Option<int>

    ghost predicate Valid()
      reads this
    {
      pos <= |changes|
    }

    /** The edges still to come: the one put back, if any, then those after `pos`. */
    ghost function Remaining(): seq<int>
      reads this
    {
      (if peeked.Some? then [peeked.value] else []) + Edges(changes, pos)
    }

    constructor(changes: Trace<SignalValue>)
      ensures Valid() && this.changes == changes && peeked.None?
      ensures Remaining() == Edges(changes, 0)
    {
      this.changes := changes;
      pos := 0;
      peeked := None;
    }

    /** `next`: the edge put back if there is one, otherwise the next edge of the changes. */
    method Next() returns (r: Option<int>)
      requires Valid()
      modifies this
      ensures Valid() && peeked.None?
      ensures old(Remaining()) == (if r.Some? then [r.value] else []) + Remaining()
      ensures r.None? ==> old(Remaining()) == []
    {
      if peeked.Some? {
        r := peeked;
        peeked := None;
        return;
      }
      while pos < |changes|
        invariant pos <= |changes| && peeked.None?
        invariant Edges(changes, pos) == old(Remaining())
        decreases |changes| - pos
      {
        if GetValue(changes[pos].1) == Some(V0) && pos + 1 < |changes| {
          var time, value := changes[pos + 1].0, changes[pos + 1].1;
          pos := pos + 2;
          if GetValue(value) == Some(V1) {
            return Some(time);
          }
        } else {
          pos := pos + 1;
        }
      }
      return None;
    }

    /**
     * `find_non_consuming`: take edges until one is later than `after` and put that one back;
     * `skipped` are the edges taken on the way, none of them later than `after`.
     */
    method FindNonConsuming(after: int) returns (r: Option<int>, ghost skipped: seq<int>)
      requires Valid()
      modifies this
      ensures Valid()
      ensures old(Remaining()) == skipped + Remaining()
      ensures forall t :: t in skipped ==> t <= after
      ensures r.Some? ==> r.value > after && peeked == r && Remaining()[0] == r.value
      ensures r.None? ==> Remaining() == []
    {
      skipped := [];
      while true
        invariant Valid()
        invariant old(Remaining()) == skipped + Remaining()
        invariant forall t :: t in skipped ==> t <= after
        decreases |Remaining()|
      {
        var t := Next();
        if t.None? {
          return None, skipped;
        }
        if t.value > after {
          peeked := t;
          return t, skipped;
        }
        skipped := skipped + [t.value];
      }
    }

    /** Draining the iterator yields exactly the edges still to come. */
    method Collect() returns (ts: seq<int>)
      requires Valid()
      modifies this
      ensures Valid() && ts == old(Remaining()) && Remaining() == []
    {
      ts := [];
      while true
        invariant Valid() && old(Remaining()) == ts + Remaining()
        decreases |Remaining()|
      {
        var t := Next();
        if t.None? {
          return;
        }
        ts := ts + [t.value];
      }
    }
  }

  // ---------------------------------------------------------------- ReadyValidTransactionIterator

  /** The index of the first change to 1 at or after `from`, or the end of the changes. */
  function FirstHigh(s: Trace<SignalValue>, from: nat): (r: nat)
    requires from <= |s|
    ensures from <= r <= |s|
    ensures r < |s| ==> GetValue(s[r].1) == Some(V1)
    ensures forall k :: from <= k < r ==> GetValue(s[k].1) != Some(V1)
    decreases |s| - from
  {
    if from == |s| || GetValue(s[from].1) == Some(V1) then from else FirstHigh(s, from + 1)
  }

  /**
   * Skip the changes of a signal that are not to 1, then take the change to 1: the new position and
   * its time, or the end of the changes and nothing when the signal never rises again.
   */
  method Resume(s: Trace<SignalValue>, p: nat) returns (q: nat, time: Option<int>)
    requires p <= |s|
    ensures FirstHigh(s, p) < |s| ==> q == FirstHigh(s, p) + 1 && time == Some(s[q - 1].0)
    ensures FirstHigh(s, p) == |s| ==> q == |s| && time.None?
    ensures time.Some? ==> 0 < q <= |s| && GetValue(s[q - 1].1) == Some(V1) && s[q - 1].0 == time.value
  {
    q := p;
    while q < |s| && GetValue(s[q].1) != Some(V1)
      invariant p <= q <= |s| && FirstHigh(s, p) == FirstHigh(s, q)
      decreases |s| - q
    {
      q := q + 1;
    }
    if q == |s| {
      return q, None;
    }
    time := Some(s[q].0);
    q := q + 1;
  }

  /**
   * Sampled high at `t`: the last change taken (at `p - 1`) is to 1 and earlier than `t`, and the
   * next change, if any, is not earlier than `t`.
   */
  ghost predicate SampledHigh(s: Trace<SignalValue>, p: nat, t: int)
  {
    0 < p <= |s| && GetValue(s[p - 1].1) == Some(V1) && s[p - 1].0 < t && (p < |s| ==> t <= s[p].0)
  }

  /** Sampled high means the value in effect just before `t` is 1. */
  lemma {:induction false} SampledHighInEffect(s: Trace<SignalValue>, p: nat, t: int)
    requires TimeOrdered(s) && SampledHigh(s, p, t)
    ensures LatestAtOrBefore(s, t - 1) == Some(s[p - 1].1)
    ensures GetValue(LatestAtOrBefore(s, t - 1).value) == Some(V1)
  {
    if p < |s| {
      var init := s[..|s| - 1];
      assert s[|s| - 1].0 >= s[p].0 >= t;
      assert TimeOrdered(init) by {
        forall a, b | 0 <= a < b < |init| ensures init[a].0 < init[b].0 { assert init[a] == s[a] && init[b] == s[b]; }
      }
      assert init[p - 1] == s[p - 1];
      assert p < |init| ==> init[p] == s[p];
      SampledHighInEffect(init, p, t);
    }
  }

  /**
   * `ReadyValidTransactionIterator`: the clock edges at which both ready and valid are sampled high.
   * `finished` records that the iterator has answered `None`; its callers stop there.
   */
  class ReadyValidTransactionIterator {
    var currentTime: int
    const clk: RisingSignalIterator
    const ready: Trace<SignalValue>
    var rpos: nat
    const valid: Trace<SignalValue>
    var vpos: nat
    const timeEnd: int
    ghost var finished: bool

    /** Before the end of time, each signal's last change taken is to 1 and not later than `currentTime`. */
    ghost predicate Valid()
      reads this, clk
    {
      clk.Valid() && rpos <= |ready| && vpos <= |valid| &&
      (!finished && currentTime < timeEnd ==> HighBy(ready, rpos, currentTime) && HighBy(valid, vpos, currentTime))
    }

    /** `new`: start at the later of the first changes to 1 of ready and of valid, or at the end of time. */
    constructor(clkChanges: Trace<SignalValue>, ready: Trace<SignalValue>, valid: Trace<SignalValue>, timeEnd: int)
      ensures Valid() && fresh(clk) && !finished
      ensures clk.Remaining() == Edges(clkChanges, 0)
      ensures this.ready == ready && this.valid == valid && this.timeEnd == timeEnd
      ensures rpos == (if FirstHigh(ready, 0) < |ready| then FirstHigh(ready, 0) + 1 else |ready|)
      ensures vpos == (if FirstHigh(valid, 0) < |valid| then FirstHigh(valid, 0) + 1 else |valid|)
      ensures currentTime == if FirstHigh(valid, 0) < |valid|
                             then Max(RiseTime(ready, timeEnd), valid[FirstHigh(valid, 0)].0)
                             else timeEnd
    {
      clk := new RisingSignalIterator(clkChanges);
      this.ready := ready;
      this.valid := valid;
      this.timeEnd := timeEnd;
      var r, v := FirstHigh(ready, 0), FirstHigh(valid, 0);
      var time := RiseTime(ready, timeEnd);
      if v < |valid| {
        time := Max(time, valid[v].0);
      } else {
        time := timeEnd;
      }
      currentTime := time;
      rpos := if r < |ready| then r + 1 else |ready|;
      vpos := if v < |valid| then v + 1 else |valid|;
      finished := false;
    }

    /** The first step of `next`: take clock edges until one is later than `currentTime`. */
    method NextEdge() returns (t: Option<int>, ghost skipped: seq<int>)
      requires clk.Valid()
      modifies clk
      ensures clk.Valid() && old(clk.Remaining()) == skipped + clk.Remaining()
      ensures t.Some? ==> t.value > currentTime && t.value in skipped
      ensures t.None? ==> clk.Remaining() == []
    {
      skipped := [];
      t := clk.Next();
      if t.Some? {
        skipped := [t.value];
      }
      while t.Some? && t.value <= currentTime
        modifies clk
        invariant clk.Valid() && old(clk.Remaining()) == skipped + clk.Remaining()
        invariant t.Some? ==> t.value in skipped
        invariant t.None? ==> clk.Remaining() == []
        decreases |clk.Remaining()| + (if t.Some? then 1 else 0)
      {
        t := clk.Next();
        if t.Some? {
          skipped := skipped + [t.value];
        }
      }
    }

    /**
     * `next`: the first clock edge after `currentTime`, then `Settle`. Before the end of time, the
     * edge answered has both signals sampled high; it is an edge the clock still had, or the end of time.
     */
    method Next() returns (r: Option<int>, ghost taken: seq<int>)
      requires Valid() && !finished
      modifies this, clk
      ensures Valid() && old(clk.Remaining()) == taken + clk.Remaining()
      ensures r.None? <==> finished
      ensures currentTime >= old(currentTime)
      ensures r.Some? ==> currentTime == r.value && r.value > old(currentTime)
      ensures r.Some? ==> r.value in old(clk.Remaining()) || r.value == timeEnd
      ensures r.Some? ==> |taken| > 0
      ensures r.Some? && r.value < timeEnd ==> SampledHigh(ready, rpos, r.value) && SampledHigh(valid, vpos, r.value)
    {
      var t, skipped := NextEdge();
      taken := skipped;
      if t.None? {
        finished := true;
        return None, taken;
      }
      currentTime := t.value;
      ghost var rest := clk.Remaining();
      assert old(clk.Remaining()) == skipped + rest;
      assert t.value in old(clk.Remaining()) && forall x :: x in rest ==> x in old(clk.Remaining());
      ghost var later;
      r, later := Settle();
      Regroup(old(clk.Remaining()), skipped, rest, later, clk.Remaining());
      taken := skipped + later;
    }

    /**
     * One pass of `Settle`'s loop for a signal whose next change is earlier than `currentTime`: the
     * signal waits for its next rise; a rise at or after `currentTime` moves the time to the first
     * clock edge after it; no rise at all ends the iteration.
     */
    method Overtake(useReady: bool) returns (stop: bool, ghost more: seq<int>)
      requires clk.Valid() && rpos <= |ready| && vpos <= |valid| && !finished && currentTime <= timeEnd
      requires useReady ==> rpos < |ready| && ready[rpos].0 < currentTime
      requires !useReady ==> vpos < |valid| && valid[vpos].0 < currentTime
      requires currentTime < timeEnd ==> Below(ready, rpos, currentTime) && Below(valid, vpos, currentTime)
      modifies this`rpos, this`vpos, this`currentTime, this`finished, clk
      ensures clk.Valid() && old(clk.Remaining()) == more + clk.Remaining() && rpos <= |ready| && vpos <= |valid|
      ensures finished == stop
      ensures currentTime >= old(currentTime)
      ensures currentTime == old(currentTime) || currentTime in old(clk.Remaining()) || currentTime == timeEnd
      ensures !stop && currentTime < timeEnd ==> Below(ready, rpos, currentTime) && Below(valid, vpos, currentTime)
      ensures useReady ==> rpos > old(rpos) && vpos == old(vpos)
      ensures !useReady ==> vpos > old(vpos) && rpos == old(rpos)
    {
      more := [];
      var s, p := if useReady then ready else valid, if useReady then rpos else vpos;
      var q, time := Resume(s, p);
      if useReady {
        rpos := q;
      } else {
        vpos := q;
      }
      if time.None? {
        finished := true;
        return true, more;
      }
      ghost var was := currentTime;
      if time.value >= currentTime {
        more := Realign(time.value);
      }
      if currentTime < timeEnd {
        assert Below(s, q, currentTime);
        if useReady {
          BelowLater(valid, vpos, was, currentTime);
        } else {
          BelowLater(ready, rpos, was, currentTime);
        }
      }
      return false, more;
    }

    /**
     * The second step of `next`: while a signal's next change is earlier than `currentTime`, wait
     * for it to rise again and, when it rises at or after `currentTime`, move to the first clock edge
     * after the rise (or to the end of time); answer `currentTime` once neither signal changes
     * before it.
     */
    method Settle() returns (r: Option<int>, ghost skipped: seq<int>)
      requires clk.Valid() && rpos <= |ready| && vpos <= |valid| && !finished
      requires currentTime < timeEnd ==> Below(ready, rpos, currentTime) && Below(valid, vpos, currentTime)
      modifies this, clk
      ensures Valid() && old(clk.Remaining()) == skipped + clk.Remaining()
      ensures r.None? <==> finished
      ensures currentTime >= old(currentTime)
      ensures r.Some? ==> currentTime == r.value
      ensures r.Some? ==> r.value == old(currentTime) || r.value in old(clk.Remaining()) || r.value == timeEnd
      ensures r.Some? && r.value < timeEnd ==> SampledHigh(ready, rpos, r.value) && SampledHigh(valid, vpos, r.value)
    {
      skipped := [];
      while rpos < |ready| || vpos < |valid|
        invariant clk.Valid() && rpos <= |ready| && vpos <= |valid| && !finished
        invariant old(clk.Remaining()) == skipped + clk.Remaining()
        invariant currentTime >= old(currentTime)
        invariant currentTime == old(currentTime) || currentTime in old(clk.Remaining()) || currentTime == timeEnd
        invariant currentTime < timeEnd ==> Below(ready, rpos, currentTime) && Below(valid, vpos, currentTime)
        decreases |ready| - rpos + |valid| - vpos
      {
        if currentTime > timeEnd {
          finished := true;
          return None, skipped;
        }
        var useReady := rpos < |ready| && (vpos == |valid| || ready[rpos].0 <= valid[vpos].0);
        var s, p := if useReady then ready else valid, if useReady then rpos else vpos;
        assert s[p].0 == if useReady then ready[rpos].0 else valid[vpos].0;
        if currentTime <= s[p].0 {
          if currentTime < timeEnd {
            SettledHigh(ready, rpos, valid, vpos, currentTime, useReady);
          }
          return Some(currentTime), skipped;
        }
        ghost var rest := clk.Remaining();
        var stop;
        ghost var more;
        stop, more := Overtake(useReady);
        Regroup(old(clk.Remaining()), skipped, rest, more, clk.Remaining());
        skipped := skipped + more;
        if stop {
          return None, skipped;
        }
      }
      r := Some(currentTime);
    }

    /** After a rise at `time`, move to the first clock edge after it, or to the end of time. */
    method Realign(time: int) returns (ghost more: seq<int>)
      requires clk.Valid()
      modifies this`currentTime, clk
      ensures clk.Valid() && old(clk.Remaining()) == more + clk.Remaining()
      ensures currentTime == timeEnd || (currentTime > time && currentTime in old(clk.Remaining()))
    {
      var f;
      f, more := clk.FindNonConsuming(time);
      currentTime := if f.Some? then f.value else timeEnd;
      assert f.Some? ==> currentTime in more + clk.Remaining();
    }

    /**
     * Draining the iterator, as the analyzers do: the times come out strictly increasing, after the
     * starting time, each an edge of the clock or the end of time, and each earlier than the end of
     * time is a handshake.
     */
    method Collect() returns (ts: seq<int>)
      requires Valid() && !finished && TimeOrdered(ready) && TimeOrdered(valid)
      modifies this, clk
      ensures finished
      ensures Collected(ts, old(currentTime), old(clk.Remaining()), timeEnd, ready, valid)
    {
      ts := [];
      ghost var skipped: seq<int> := [];
      var going := true;
      while going
        invariant Valid() && going == !finished && old(clk.Remaining()) == skipped + clk.Remaining()
        invariant Collected(ts, old(currentTime), old(clk.Remaining()), timeEnd, ready, valid)
        invariant currentTime >= old(currentTime) && (|ts| > 0 ==> ts[|ts| - 1] <= currentTime)
        decreases |clk.Remaining()|, if going then 1 else 0
      {
        ghost var rest := clk.Remaining();
        ghost var was := currentTime;
        var t, taken := Next();
        Regroup(old(clk.Remaining()), skipped, rest, taken, clk.Remaining());
        going := t.Some?;
        if t.Some? {
          CollectStep(ts, old(currentTime), skipped, rest, timeEnd, ready, rpos, valid, vpos, was, t.value);
          ts := ts + [t.value];
        }
        skipped := skipped + taken;
      }
    }
  }

  /**
   * The times collected so far: strictly increasing, after `from`, each one of `edges` or the end of
   * time, and each earlier than the end of time a handshake.
   */
  ghost predicate Collected(ts: seq<int>, from: int, edges: seq<int>, timeEnd: int,
                            ready: Trace<SignalValue>, valid: Trace<SignalValue>)
  {
    StrictlyIncreasing(ts) &&
    forall i :: 0 <= i < |ts| ==>
      ts[i] > from && (ts[i] in edges || ts[i] == timeEnd) && (ts[i] < timeEnd ==> HandshakeAt(ready, valid, ts[i]))
  }

  /** A time the iterator answers extends what was collected: it is sampled high on both signals. */
  lemma CollectStep(ts: seq<int>, from: int, skipped: seq<int>, rest: seq<int>, timeEnd: int,
                    ready: Trace<SignalValue>, rpos: nat, valid: Trace<SignalValue>, vpos: nat, last: int, t: int)
    requires TimeOrdered(ready) && TimeOrdered(valid)
    requires Collected(ts, from, skipped + rest, timeEnd, ready, valid) && (|ts| > 0 ==> ts[|ts| - 1] <= last)
    requires last >= from && t > last && (t in rest || t == timeEnd)
    requires t < timeEnd ==> SampledHigh(ready, rpos, t) && SampledHigh(valid, vpos, t)
    ensures Collected(ts + [t], from, skipped + rest, timeEnd, ready, valid)
  {
    assert t in rest ==> t in skipped + rest;
    if t < timeEnd {
      SampledHighInEffect(ready, rpos, t);
      SampledHighInEffect(valid, vpos, t);
    }
    CollectedSnoc(ts, from, skipped + rest, timeEnd, ready, valid, last, t);
  }

  lemma CollectedSnoc(ts: seq<int>, from: int, edges: seq<int>, timeEnd: int,
                      ready: Trace<SignalValue>, valid: Trace<SignalValue>, last: int, t: int)
    requires Collected(ts, from, edges, timeEnd, ready, valid) && (|ts| > 0 ==> ts[|ts| - 1] <= last)
    requires t > last && t > from && (t in edges || t == timeEnd) && (t < timeEnd ==> HandshakeAt(ready, valid, t))
    ensures Collected(ts + [t], from, edges, timeEnd, ready, valid)
  {
    var ts' := ts + [t];
    forall i, j | 0 <= i < j < |ts'| ensures ts'[i] < ts'[j] {
      if j == |ts| {
        assert ts'[i] == ts[i] && ts[i] <= ts[|ts| - 1];
      }
    }
  }

  /** The time of the first change to 1, or `dflt` when there is none. */
  function RiseTime(s: Trace<SignalValue>, dflt: int): (r: int)
    ensures FirstHigh(s, 0) < |s| ==> r == s[FirstHigh(s, 0)].0 && GetValue(s[FirstHigh(s, 0)].1) == Some(V1)
    ensures FirstHigh(s, 0) == |s| ==> r == dflt
  {
    if FirstHigh(s, 0) < |s| then s[FirstHigh(s, 0)].0 else dflt
  }

  /** A handshake at `t`: the values of ready and valid in effect just before `t` are both 1. */
  ghost predicate HandshakeAt(ready: Trace<SignalValue>, valid: Trace<SignalValue>, t: int)
  {
    LatestAtOrBefore(ready, t - 1).Some? && GetValue(LatestAtOrBefore(ready, t - 1).value) == Some(V1) &&
    LatestAtOrBefore(valid, t - 1).Some? && GetValue(LatestAtOrBefore(valid, t - 1).value) == Some(V1)
  }

  function Max(a: int, b: int): int
  {
    if a < b then b else a
  }

  /** The last change taken is to 1 and not later than `t`. */
  ghost predicate HighBy(s: Trace<SignalValue>, p: nat, t: int)
  {
    0 < p <= |s| && GetValue(s[p - 1].1) == Some(V1) && s[p - 1].0 <= t
  }

  /** The last change taken is to 1 and earlier than `t`. */
  ghost predicate Below(s: Trace<SignalValue>, p: nat, t: int)
  {
    0 < p <= |s| && GetValue(s[p - 1].1) == Some(V1) && s[p - 1].0 < t
  }

  lemma Regroup(all: seq<int>, a: seq<int>, rest: seq<int>, b: seq<int>, tail: seq<int>)
    requires all == a + rest && rest == b + tail
    ensures all == (a + b) + tail
  {
  }

  lemma BelowLater(s: Trace<SignalValue>, p: nat, t: int, t': int)
    requires Below(s, p, t) && t <= t'
    ensures Below(s, p, t')
  {
  }

  /** When the earlier of the two next changes is not before `t`, both signals are sampled high at `t`. */
  lemma SettledHigh(ready: Trace<SignalValue>, rpos: nat, valid: Trace<SignalValue>, vpos: nat, t: int, useReady: bool)
    requires rpos <= |ready| && vpos <= |valid|
    requires Below(ready, rpos, t) && Below(valid, vpos, t)
    requires useReady == (rpos < |ready| && (vpos == |valid| || ready[rpos].0 <= valid[vpos].0))
    requires useReady ==> t <= ready[rpos].0
    requires !useReady ==> vpos < |valid| && t <= valid[vpos].0
    ensures SampledHigh(ready, rpos, t) && SampledHigh(valid, vpos, t)
  {
  }
}
