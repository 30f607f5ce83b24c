// The AXI analyzers that work on the raw changes of the valid signals: every change of the address
// valid to "1" is a transaction, answered by the first later change of the data or response valid
// to "1". Values are bit strings; the time is the time-table index.
module AxiValidChanges {
  import opened Wrappers
  import opened Traces

  const U32: int := 0x1_0000_0000

  /** The arguments of `add_transaction`: issue, response, last data and first data time, response, delay. */
  datatype DelayRecord = DelayRecord(start: int, respTime: int, lastData: int, firstData: int, resp: string, delay: int)

  /** How a run ends: the records, or a panic (an uncaught exception) at a time, or a loop that never ends. */
  datatype Outcome = Done(records: seq<DelayRecord>) | NoClock | Fails(at: int) | Hangs(at: int)

  /** What one address change contributes. */
  datatype Step = Skip | Emit(rec: DelayRecord) | Fail(at: int) | Hang(at: int)

  /** The change times of a trace. */
  function Times<V>(tr: Trace<V>): (r: seq<int>)
    ensures |r| == |tr| && forall k :: 0 <= k < |tr| ==> r[k] == tr[k].0
  {
    seq(|tr|, k requires 0 <= k < |tr| => tr[k].0)
  }

  /**
   * `create_next_transaction_iter`, and `next_time[2:] + [time_end, time_end]` in the plugins: the
   * change times from the third on, then the end time twice, so that zipped with the changes the
   * k-th change is paired with the time of change k + 2, or the end time.
   */
  function ShiftTwo(times: seq<int>, lastTime: int): (r: seq<int>)
    ensures |r| >= |times|
    ensures forall k :: 0 <= k < |times| ==> r[k] == if k + 2 < |times| then times[k + 2] else lastTime
  {
    (if |times| >= 2 then times[2..] else []) + [lastTime, lastTime]
  }

  /** A change to "1" after `t`, or at or after `t` when not `strict`. */
  predicate Rises(c: (int, string), t: int, strict: bool)
  {
    c.1 == "1" && if strict then c.0 > t else c.0 >= t
  }

  /** The index of the first change from `from` on that rises after `t` (a `find` over the changes). */
  function FirstRise(s: Trace<string>, from: nat, t: int, strict: bool): (r: Option<nat>)
    requires from <= |s|
    ensures r.Some? ==> from <= r.value < |s| && Rises(s[r.value], t, strict)
    ensures forall k :: from <= k < |s| && (r.None? || k < r.value) ==> !Rises(s[k], t, strict)
    decreases |s| - from
  {
    if from == |s| then None
    else if Rises(s[from], t, strict) then Some(from)
    else FirstRise(s, from + 1, t, strict)
  }

  /** `d` as a `u32` subtraction wraps it in a release build; plain integers otherwise. */
  function Delay(wrap: bool, d: int): (r: int)
    ensures wrap ==> 0 <= r < U32 && (r - d) % U32 == 0
    ensures !wrap ==> r == d
  {
    if wrap then d % U32 else d
  }

  // ---------------------------------------------------------------- resets

  /** The times of the changes to the active value, in order. */
  function ActiveTimes(rst: Trace<string>, active: string): (r: seq<int>)
    ensures |r| <= |rst|
  {
    if |rst| == 0 then []
    else (if rst[0].1 == active then [rst[0].0] else []) + ActiveTimes(rst[1..], active)
  }

  lemma {:induction false} ActiveTimesAfter(rst: Trace<string>, active: string, bound: int)
    requires forall k :: 0 <= k < |rst| ==> rst[k].0 > bound
    ensures forall i :: 0 <= i < |ActiveTimes(rst, active)| ==> ActiveTimes(rst, active)[i] > bound
  {
    if |rst| > 0 {
      ActiveTimesAfter(rst[1..], active, bound);
    }
  }

  /** The reset times of a time-ordered trace are strictly increasing. */
  lemma {:induction false} ActiveTimesIncreasing(rst: Trace<string>, active: string)
    requires TimeOrdered(rst)
    ensures StrictlyIncreasing(ActiveTimes(rst, active))
  {
    if |rst| > 0 {
      var rest := rst[1..];
      assert TimeOrdered(rest) by {
        forall a, b | 0 <= a < b < |rest| ensures rest[a].0 < rest[b].0 { assert rest[a] == rst[a + 1] && rest[b] == rst[b + 1]; }
      }
      ActiveTimesIncreasing(rest, active);
      ActiveTimesAfter(rest, active, rst[0].0);
    }
  }

  /** The reset the cursor stands at: reset `kr`, or the end time once they are used up. */
  function NextReset(resets: seq<int>, kr: nat, lastTime: int): int
    requires kr <= |resets|
  {
    if kr < |resets| then resets[kr] else lastTime
  }

  /** The first reset from index `j` on at or after `t`, or the end time when there is none. */
  function ResetFrom(resets: seq<int>, j: nat, t: int, lastTime: int): (r: int)
    requires j <= |resets|
    ensures r == lastTime || (exists m :: j <= m < |resets| && r == resets[m] && r >= t)
    decreases |resets| - j
  {
    if j == |resets| then lastTime
    else if resets[j] >= t then resets[j]
    else ResetFrom(resets, j + 1, t, lastTime)
  }

  /** No reset at or after `t`. */
  predicate NoResetFrom(resets: seq<int>, t: int)
  {
    forall m :: 0 <= m < |resets| ==> resets[m] < t
  }

  /** Resets before the cursor that are all earlier than `t` do not change the first reset at or after `t`. */
  lemma {:induction false} ResetFromSkips(resets: seq<int>, j: nat, kr: nat, t: int, lastTime: int)
    requires j <= kr <= |resets| && forall m :: j <= m < kr ==> resets[m] < t
    ensures ResetFrom(resets, j, t, lastTime) == ResetFrom(resets, kr, t, lastTime)
    decreases kr - j
  {
    if j < kr {
      ResetFromSkips(resets, j + 1, kr, t, lastTime);
    }
  }

  /**
   * `while next_reset < time: next_reset = next(reset, time_end)`: moves the cursor to the first
   * reset at or after `time`; `stuck` when none is left and the end time itself is before `time`,
   * where the loop never ends.
   */
  method AdvanceCursor(resets: seq<int>, lastTime: int, kr0: nat, time: int) returns (kr: nat, stuck: bool)
    requires StrictlyIncreasing(resets) && kr0 <= |resets| && (kr0 > 0 ==> resets[kr0 - 1] < time)
    ensures kr <= |resets| && (kr > 0 ==> resets[kr - 1] < time)
    ensures stuck <==> NoResetFrom(resets, time) && lastTime < time
    ensures !stuck ==> NextReset(resets, kr, lastTime) == ResetFrom(resets, 0, time, lastTime)
  {
    kr := kr0;
    while NextReset(resets, kr, lastTime) < time
      invariant kr <= |resets| && (kr > 0 ==> resets[kr - 1] < time)
      decreases |resets| - kr
    {
      if kr == |resets| {
        assert NoResetFrom(resets, time) by {
          forall m | 0 <= m < |resets| ensures resets[m] < time {
            assert resets[m] <= resets[kr - 1];
          }
        }
        return kr, true;
      }
      kr := kr + 1;
    }
    assert forall m :: 0 <= m < kr ==> resets[m] < time by {
      forall m | 0 <= m < kr ensures resets[m] < time {
        assert resets[m] <= resets[kr - 1];
      }
    }
    ResetFromSkips(resets, 0, kr, time, lastTime);
    stuck := false;
    assert kr < |resets| ==> !NoResetFrom(resets, time);
  }

  // ---------------------------------------------------------------- read analyzers

  /** The inputs of a read analysis: address and data valid changes, reset times, response samples, end time. */
  datatype ReadInputs = ReadInputs(arVld: Trace<string>, rVld: Trace<string>, resets: seq<int>, rResp: Trace<string>, lastTime: int)

  /**
   * How the read analyzers differ: whether the first data must be strictly after the address change,
   * whether a reset before the first data drops the transaction, and whether the delay is a `u32`.
   */
  datatype Variant = Variant(strictFirst: bool, skipOnReset: bool, wrapDelay: bool)

  /**
   * What address change `k` contributes: nothing unless it is to "1"; with reset skipping, the reset
   * cursor first moves up to it (forever when no reset is left and the end time is earlier); then
   * the first data change to "1" after it (a panic when there is none); the transaction is dropped
   * when the next reset comes before that data; otherwise the record takes that data as first, last
   * and response time, the response in effect then, and the time to the next transaction.
   */
  function ReadStep(inp: ReadInputs, va: Variant, k: nat): (r: Step)
    requires k < |inp.arVld|
    ensures r.Emit? ==> inp.arVld[k].1 == "1" && r.rec.start == inp.arVld[k].0
    ensures r.Emit? ==> r.rec.firstData == r.rec.respTime == r.rec.lastData
  {
    var time := inp.arVld[k].0;
    if inp.arVld[k].1 != "1" then Skip
    else if va.skipOnReset && NoResetFrom(inp.resets, time) && inp.lastTime < time then Hang(time)
    else match FirstRise(inp.rVld, 0, time, va.strictFirst)
      case None => Fail(time)
      case Some(f) =>
        var first := inp.rVld[f].0;
        if va.skipOnReset && ResetFrom(inp.resets, 0, time, inp.lastTime) < first then Skip
        else match LatestAtOrBefore(inp.rResp, first)
          case None => Fail(first)
          case Some(resp) =>
            Emit(DelayRecord(time, first, first, first, resp,
                             Delay(va.wrapDelay, ShiftTwo(Times(inp.arVld), inp.lastTime)[k] - first)))
  }

  /** The outcome after the first `n` address changes. */
  function ReadRows(inp: ReadInputs, va: Variant, n: nat): Outcome
    requires n <= |inp.arVld|
  {
    if n == 0 then Done([])
    else
      match ReadRows(inp, va, n - 1)
      case Done(rs) =>
        (match ReadStep(inp, va, n - 1)
         case Skip => Done(rs)
         case Emit(rec) => Done(rs + [rec])
         case Fail(at) => Fails(at)
         case Hang(at) => Hangs(at))
      case other => other
  }

  /** A run never ends for want of a clock, and once it panics or hangs later changes do not matter. */
  lemma {:induction false} ReadRowsStop(inp: ReadInputs, va: Variant, n: nat, m: nat)
    requires n <= m <= |inp.arVld|
    ensures !ReadRows(inp, va, m).NoClock?
    ensures !ReadRows(inp, va, n).Done? ==> ReadRows(inp, va, m) == ReadRows(inp, va, n)
    decreases m
  {
    if n < m {
      ReadRowsStop(inp, va, n, m - 1);
    } else if m > 0 {
      ReadRowsStop(inp, va, m - 1, m - 1);
    }
  }

  /** The outcome after one more address change, while the run is still going. */
  lemma ReadRowsNext(inp: ReadInputs, va: Variant, k: nat, records: seq<DelayRecord>, step: Step)
    requires k < |inp.arVld| && ReadRows(inp, va, k) == Done(records) && step == ReadStep(inp, va, k)
    ensures ReadRows(inp, va, k + 1) ==
            match step
            case Skip => Done(records)
            case Emit(rec) => Done(records + [rec])
            case Fail(at) => Fails(at)
            case Hang(at) => Hangs(at)
  {
  }

  /** The loop over the zipped address changes and next times, with the reset cursor. */
  method ReadCalculate(inp: ReadInputs, va: Variant) returns (o: Outcome)
    requires TimeOrdered(inp.arVld) && StrictlyIncreasing(inp.resets)
    ensures o == ReadRows(inp, va, |inp.arVld|)
  {
    var next := ShiftTwo(Times(inp.arVld), inp.lastTime);
    var records: seq<DelayRecord> := [];
    var kr: nat := 0;
    var k := 0;
    while k < |inp.arVld|
      invariant k <= |inp.arVld| && kr <= |inp.resets|
      invariant kr > 0 ==> 0 < k && inp.resets[kr - 1] < inp.arVld[k - 1].0
      invariant ReadRows(inp, va, k) == Done(records)
    {
      var o;
      o, kr := ReadAdvance(inp, va, next, k, kr, records);
      if !o.Done? {
        assert ReadRows(inp, va, |inp.arVld|) == o by {
          ReadRowsStop(inp, va, k + 1, |inp.arVld|);
        }
        return o;
      }
      records := o.records;
      k := k + 1;
    }
    return Done(records);
  }

  /** One pass of the loop, as the outcome after address change `k`. */
  method ReadAdvance(inp: ReadInputs, va: Variant, next: seq<int>, k: nat, kr0: nat, records: seq<DelayRecord>)
    returns (o: Outcome, kr: nat)
    requires TimeOrdered(inp.arVld) && StrictlyIncreasing(inp.resets)
    requires next == ShiftTwo(Times(inp.arVld), inp.lastTime)
    requires k < |inp.arVld| && kr0 <= |inp.resets|
    requires kr0 > 0 ==> 0 < k && inp.resets[kr0 - 1] < inp.arVld[k - 1].0
    requires ReadRows(inp, va, k) == Done(records)
    ensures o == ReadRows(inp, va, k + 1)
    ensures kr <= |inp.resets| && (kr > 0 ==> inp.resets[kr - 1] < inp.arVld[k].0)
  {
    var step;
    step, kr := ReadRound(inp, va, next, k, kr0);
    ReadRowsNext(inp, va, k, records, step);
    match step {
      case Skip => o := Done(records);
      case Emit(rec) => o := Done(records + [rec]);
      case Fail(at) => o := Fails(at);
      case Hang(at) => o := Hangs(at);
    }
  }

  /** One pass of the loop, for address change `k`, with the reset cursor at `kr0`. */
  method ReadRound(inp: ReadInputs, va: Variant, next: seq<int>, k: nat, kr0: nat) returns (step: Step, kr: nat)
    requires TimeOrdered(inp.arVld) && StrictlyIncreasing(inp.resets)
    requires next == ShiftTwo(Times(inp.arVld), inp.lastTime)
    requires k < |inp.arVld| && kr0 <= |inp.resets|
    requires kr0 > 0 ==> 0 < k && inp.resets[kr0 - 1] < inp.arVld[k - 1].0
    ensures step == ReadStep(inp, va, k)
    ensures kr <= |inp.resets| && (kr > 0 ==> inp.resets[kr - 1] < inp.arVld[k].0)
  {
    kr := kr0;
    var time, value := inp.arVld[k].0, inp.arVld[k].1;
    assert k > 0 ==> inp.arVld[k - 1].0 < time;
    if value != "1" {
      return Skip, kr;
    }
    var nextReset := inp.lastTime;
    if va.skipOnReset {
      var stuck;
      kr, stuck := AdvanceCursor(inp.resets, inp.lastTime, kr, time);
      if stuck {
        return Hang(time), kr;
      }
      nextReset := NextReset(inp.resets, kr, inp.lastTime);
    }
    var f := FirstRise(inp.rVld, 0, time, va.strictFirst);
    if f.None? {
      return Fail(time), kr;
    }
    var first := inp.rVld[f.value].0;
    if va.skipOnReset && nextReset < first {
      return Skip, kr;
    }
    var resp := LatestAtOrBefore(inp.rResp, first);
    if resp.None? {
      return Fail(first), kr;
    }
    step := Emit(DelayRecord(time, first, first, first, resp.value, Delay(va.wrapDelay, next[k] - first)));
  }

  /** Every record is a change to "1" of the address valid, answered by the first data change to "1" after it. */
  lemma {:induction false} ReadRowsAnswer(inp: ReadInputs, va: Variant, n: nat)
    requires n <= |inp.arVld| && ReadRows(inp, va, n).Done?
    ensures forall q :: 0 <= q < |ReadRows(inp, va, n).records| ==> ReadRecordOk(inp, va, ReadRows(inp, va, n).records[q])
  {
    if n > 0 {
      ReadRowsAnswer(inp, va, n - 1);
      var s := ReadStep(inp, va, n - 1);
      if s.Emit? {
        assert ReadRecordOk(inp, va, s.rec) by {
          assert inp.arVld[n - 1].1 == "1";
        }
      }
    }
  }

  /**
   * A read record: its start is a change of the address valid to "1"; its first data is the first
   * data change to "1" after the start, and also its last data and response time; its response is
   * the one in effect at that time.
   */
  ghost predicate ReadRecordOk(inp: ReadInputs, va: Variant, rec: DelayRecord)
  {
    (exists k :: 0 <= k < |inp.arVld| && inp.arVld[k] == (rec.start, "1")) &&
    (exists f :: 0 <= f < |inp.rVld| && FirstRise(inp.rVld, 0, rec.start, va.strictFirst) == Some(f) && inp.rVld[f].0 == rec.firstData) &&
    rec.respTime == rec.firstData && rec.lastData == rec.firstData &&
    LatestAtOrBefore(inp.rResp, rec.respTime) == Some(rec.resp)
  }

  /** The address changes that yield nothing or a record, with no reset skipping. */
  function OnesBefore(arVld: Trace<string>, n: nat): (r: nat)
    requires n <= |arVld|
    ensures r <= n
  {
    if n == 0 then 0 else OnesBefore(arVld, n - 1) + (if arVld[n - 1].1 == "1" then 1 else 0)
  }

  /** Without reset skipping, a finished run has exactly one record per change of the address valid to "1". */
  lemma {:induction false} ReadRowsCount(inp: ReadInputs, va: Variant, n: nat)
    requires n <= |inp.arVld| && !va.skipOnReset && ReadRows(inp, va, n).Done?
    ensures |ReadRows(inp, va, n).records| == OnesBefore(inp.arVld, n)
  {
    if n > 0 {
      ReadRowsCount(inp, va, n - 1);
    }
  }

  /** Records come out in address-change order, so their starts strictly increase. */
  lemma {:induction false} ReadRowsOrdered(inp: ReadInputs, va: Variant, n: nat)
    requires n <= |inp.arVld| && TimeOrdered(inp.arVld) && ReadRows(inp, va, n).Done?
    ensures StrictlyIncreasing(Starts(ReadRows(inp, va, n).records))
    ensures n > 0 ==> forall q :: 0 <= q < |ReadRows(inp, va, n).records| ==> ReadRows(inp, va, n).records[q].start <= inp.arVld[n - 1].0
  {
    if n > 0 {
      ReadRowsOrdered(inp, va, n - 1);
      var rs := ReadRows(inp, va, n - 1).records;
      if n > 1 {
        assert inp.arVld[n - 2].0 < inp.arVld[n - 1].0;
      }
      var s := ReadStep(inp, va, n - 1);
      if s.Emit? {
        StartsSnoc(rs, s.rec);
      }
    }
  }

  /**
   * With reset skipping, a change to "1" whose first data is found yields a record exactly when
   * the first reset at or after it (or the end time) is not before that data.
   */
  lemma ReadStepDrops(inp: ReadInputs, k: nat, f: nat)
    requires k < |inp.arVld| && inp.arVld[k].1 == "1"
    requires !(NoResetFrom(inp.resets, inp.arVld[k].0) && inp.lastTime < inp.arVld[k].0)
    requires FirstRise(inp.rVld, 0, inp.arVld[k].0, true) == Some(f)
    requires LatestAtOrBefore(inp.rResp, inp.rVld[f].0).Some?
    ensures ReadStep(inp, Variant(true, true, false), k).Skip? <==> ResetFrom(inp.resets, 0, inp.arVld[k].0, inp.lastTime) < inp.rVld[f].0
    ensures ReadStep(inp, Variant(true, true, false), k).Emit? <==> ResetFrom(inp.resets, 0, inp.arVld[k].0, inp.lastTime) >= inp.rVld[f].0
  {
  }

  function Starts(records: seq<DelayRecord>): (r: seq<int>)
    ensures |r| == |records| && forall q :: 0 <= q < |records| ==> r[q] == records[q].start
  {
    seq(|records|, q requires 0 <= q < |records| => records[q].start)
  }

  lemma StartsSnoc(records: seq<DelayRecord>, rec: DelayRecord)
    requires StrictlyIncreasing(Starts(records)) && forall q :: 0 <= q < |records| ==> records[q].start < rec.start
    ensures StrictlyIncreasing(Starts(records + [rec]))
  {
    var s := Starts(records + [rec]);
    forall a, b | 0 <= a < b < |s| ensures s[a] < s[b] {
      assert s[a] == (records + [rec])[a].start;
      if b < |records| {
        assert s[a] == Starts(records)[a] && s[b] == Starts(records)[b];
      }
    }
  }

  // ---------------------------------------------------------------- write analyzers

  /** The inputs of a write analysis: address, data and response valid changes, response samples, end time. */
  datatype WriteInputs = WriteInputs(awVld: Trace<string>, wVld: Trace<string>, bVld: Trace<string>, bResp: Trace<string>, lastTime: int)

  /** The key `max_by_key` ranks data changes by: the time of a change away from "1" within `[time, respTime]`, else 0. */
  function WriteKey(c: (int, string), time: int, respTime: int): int
  {
    if c.0 < time || c.0 > respTime || c.1 == "1" then 0 else c.0
  }

  /** `max_by_key`: the index of the last change with the largest key. */
  function MaxByKey(s: Trace<string>, time: int, respTime: int): (r: nat)
    requires |s| > 0
    ensures r < |s|
    ensures forall k :: 0 <= k < |s| ==> WriteKey(s[k], time, respTime) <= WriteKey(s[r], time, respTime)
    ensures forall k :: r < k < |s| ==> WriteKey(s[k], time, respTime) < WriteKey(s[r], time, respTime)
  {
    if |s| == 1 then 0
    else
      var m := MaxByKey(s[..|s| - 1], time, respTime);
      assert forall k :: 0 <= k < |s| - 1 ==> s[..|s| - 1][k] == s[k];
      if WriteKey(s[|s| - 1], time, respTime) >= WriteKey(s[m], time, respTime) then |s| - 1 else m
  }

  /** When no data change in the window leaves "1", the last data change of the whole trace is taken. */
  lemma MaxByKeyAllZero(s: Trace<string>, time: int, respTime: int)
    requires |s| > 0 && time > 0
    requires forall k :: 0 <= k < |s| ==> WriteKey(s[k], time, respTime) == 0
    ensures MaxByKey(s, time, respTime) == |s| - 1
  {
  }

  /** Otherwise the last data change taken is the latest change away from "1" within the window. */
  lemma MaxByKeyInWindow(s: Trace<string>, time: int, respTime: int, k: nat)
    requires TimeOrdered(s) && time > 0 && k < |s| && time <= s[k].0 <= respTime && s[k].1 != "1"
    ensures var m := MaxByKey(s, time, respTime);
      time <= s[m].0 <= respTime && s[m].1 != "1" &&
      forall j :: 0 <= j < |s| && time <= s[j].0 <= respTime && s[j].1 != "1" ==> s[j].0 <= s[m].0
  {
    var m := MaxByKey(s, time, respTime);
    assert WriteKey(s[k], time, respTime) == s[k].0 > 0;
    forall j | 0 <= j < |s| && time <= s[j].0 <= respTime && s[j].1 != "1" ensures s[j].0 <= s[m].0 {
      assert WriteKey(s[j], time, respTime) == s[j].0;
    }
  }

  /**
   * What address change `k` contributes: nothing unless it is to "1"; then the first data change to
   * "1" at or after it and the first response change to "1" after it (a panic when either is missing),
   * the last data change by `max_by_key`, the response in effect at the response time, and the `u32`
   * time to the next transaction.
   */
  function WriteStep(inp: WriteInputs, k: nat): (r: Step)
    requires k < |inp.awVld|
    ensures r.Emit? ==> inp.awVld[k].1 == "1" && r.rec.start == inp.awVld[k].0
    ensures r.Emit? ==> r.rec.firstData >= r.rec.start && r.rec.respTime > r.rec.start && 0 <= r.rec.delay < U32
    ensures !r.Hang?
  {
    var time := inp.awVld[k].0;
    if inp.awVld[k].1 != "1" then Skip
    else match FirstRise(inp.wVld, 0, time, false)
      case None => Fail(time)
      case Some(f) =>
        match FirstRise(inp.bVld, 0, time, true)
        case None => Fail(time)
        case Some(b) =>
          var respTime := inp.bVld[b].0;
          var last := inp.wVld[MaxByKey(inp.wVld, time, respTime)].0;
          match LatestAtOrBefore(inp.bResp, respTime)
          case None => Fail(respTime)
          case Some(resp) =>
            Emit(DelayRecord(time, respTime, last, inp.wVld[f].0, resp,
                             Delay(true, ShiftTwo(Times(inp.awVld), inp.lastTime)[k] - respTime)))
  }

  /** The outcome after the first `n` address changes. */
  function WriteRows(inp: WriteInputs, n: nat): Outcome
    requires n <= |inp.awVld|
  {
    if n == 0 then Done([])
    else
      match WriteRows(inp, n - 1)
      case Done(rs) =>
        (match WriteStep(inp, n - 1)
         case Skip => Done(rs)
         case Emit(rec) => Done(rs + [rec])
         case Fail(at) => Fails(at)
         case Hang(at) => Hangs(at))
      case other => other
  }

  /** A run never ends for want of a clock, and once it panics later changes do not matter. */
  lemma {:induction false} WriteRowsStop(inp: WriteInputs, n: nat, m: nat)
    requires n <= m <= |inp.awVld|
    ensures !WriteRows(inp, m).NoClock? && !WriteRows(inp, m).Hangs?
    ensures !WriteRows(inp, n).Done? ==> WriteRows(inp, m) == WriteRows(inp, n)
    decreases m
  {
    if n < m {
      WriteRowsStop(inp, n, m - 1);
    } else if m > 0 {
      WriteRowsStop(inp, m - 1, m - 1);
    }
  }

  /** The body of the write loop for address change `k`: skip it, add its record, or panic. */
  method WriteRound(inp: WriteInputs, next: seq<int>, k: nat, records: seq<DelayRecord>)
    returns (stop: Option<int>, records': seq<DelayRecord>)
    requires k < |inp.awVld| && next == ShiftTwo(Times(inp.awVld), inp.lastTime)
    requires WriteRows(inp, k) == Done(records)
    ensures stop.None? ==> WriteRows(inp, k + 1) == Done(records')
    ensures stop.Some? ==> WriteRows(inp, k + 1) == Fails(stop.value)
  {
    records' := records;
    stop := None;
    var time, value := inp.awVld[k].0, inp.awVld[k].1;
    if value == "1" {
      var f := FirstRise(inp.wVld, 0, time, false);
      if f.None? {
        return Some(time), records;
      }
      var b := FirstRise(inp.bVld, 0, time, true);
      if b.None? {
        return Some(time), records;
      }
      var respTime := inp.bVld[b.value].0;
      var last := inp.wVld[MaxByKey(inp.wVld, time, respTime)].0;
      var resp := LatestAtOrBefore(inp.bResp, respTime);
      if resp.None? {
        return Some(respTime), records;
      }
      records' := records + [DelayRecord(time, respTime, last, inp.wVld[f.value].0, resp.value, Delay(true, next[k] - respTime))];
    }
  }

  /** The loop over the zipped address changes and next times of the write analyzers. */
  method WriteCalculate(inp: WriteInputs) returns (o: Outcome)
    ensures o == WriteRows(inp, |inp.awVld|)
  {
    var next := ShiftTwo(Times(inp.awVld), inp.lastTime);
    var records: seq<DelayRecord> := [];
    var k := 0;
    while k < |inp.awVld|
      invariant k <= |inp.awVld| && WriteRows(inp, k) == Done(records)
    {
      var stop;
      stop, records := WriteRound(inp, next, k, records);
      if stop.Some? {
        assert WriteRows(inp, |inp.awVld|) == Fails(stop.value) by {
          WriteRowsStop(inp, k + 1, |inp.awVld|);
        }
        return Fails(stop.value);
      }
      k := k + 1;
    }
    return Done(records);
  }

  /** Without a panic there is exactly one write record per change of the address valid to "1", in order. */
  lemma {:induction false} WriteRowsCount(inp: WriteInputs, n: nat)
    requires n <= |inp.awVld| && WriteRows(inp, n).Done?
    ensures |WriteRows(inp, n).records| == OnesBefore(inp.awVld, n)
    ensures forall q :: 0 <= q < |WriteRows(inp, n).records| ==> WriteRows(inp, n).records[q].respTime > WriteRows(inp, n).records[q].start
  {
    if n > 0 {
      WriteRowsCount(inp, n - 1);
    }
  }

  // ---------------------------------------------------------------- reset count over all changes

  /** The reset time of the changes before halving: an active change moves `last`, any other adds the time since. */
  function AllResetTotal(cs: Trace<string>, active: string, last: int): int
  {
    if |cs| == 0 then 0
    else if cs[0].1 == active then AllResetTotal(cs[1..], active, cs[0].0)
    else (cs[0].0 - last) + AllResetTotal(cs[1..], active, last)
  }

  /** `count_reset` of the first analyzers: over every change of the reset, from time 0, halved. */
  method CountResetAll(rst: Trace<string>, active: string) returns (r: int)
    ensures r == AllResetTotal(rst, active, 0) / 2
  {
    var last, reset := 0, 0;
    var k := 0;
    while k < |rst|
      invariant k <= |rst|
      invariant reset + AllResetTotal(rst[k..], active, last) == AllResetTotal(rst, active, 0)
    {
      assert rst[k..][0] == rst[k] && rst[k..][1..] == rst[k + 1..];
      if rst[k].1 == active {
        last := rst[k].0;
      } else {
        reset := reset + (rst[k].0 - last);
      }
      k := k + 1;
    }
    assert rst[k..] == [];
    return reset / 2;
  }

  /** No two consecutive changes are both inactive. */
  ghost predicate AlternatingAll(cs: Trace<string>, active: string)
  {
    forall k :: 0 <= k < |cs| - 1 ==> cs[k].1 == active || cs[k + 1].1 == active
  }

  /** With reset and release alternating after `last`, the count is between 0 and the time from `last` to the last change. */
  lemma {:induction false} AllResetTotalBounded(cs: Trace<string>, active: string, last: int)
    requires TimeOrdered(cs) && AlternatingAll(cs, active)
    requires forall k :: 0 <= k < |cs| ==> last <= cs[k].0
    ensures 0 <= AllResetTotal(cs, active, last) <= (if |cs| == 0 then 0 else cs[|cs| - 1].0 - last)
  {
    if |cs| > 0 {
      var rest := cs[1..];
      assert TimeOrdered(rest) && AlternatingAll(rest, active) by {
        assert forall k :: 0 <= k < |rest| ==> rest[k] == cs[k + 1];
      }
      if cs[0].1 == active {
        AllResetTotalBounded(rest, active, cs[0].0);
        if |rest| > 0 { assert rest[|rest| - 1] == cs[|cs| - 1]; }
      } else if |rest| > 0 {
        assert rest[0].1 == active;
        var rest2 := rest[1..];
        assert TimeOrdered(rest2) && AlternatingAll(rest2, active) by {
          assert forall k :: 0 <= k < |rest2| ==> rest2[k] == cs[k + 2];
        }
        AllResetTotalBounded(rest2, active, rest[0].0);
        assert AllResetTotal(rest, active, last) == AllResetTotal(rest2, active, rest[0].0);
        assert cs[0].0 < rest[0].0;
        if |rest2| > 0 { assert rest2[|rest2| - 1] == cs[|cs| - 1]; } else { assert rest[0] == cs[|cs| - 1]; }
      }
    }
  }

  // ---------------------------------------------------------------- the analyzers

  /**
   * `AXIRdAnalyzer.analyze` of the AXIRdAnalyzerPython plugin: reset edges are the changes to "1";
   * the first data is strictly after the address change; the delay is a plain integer.
   */
  method PythonReadWithReset(clk: seq<int>, rst: Trace<string>, arVld: Trace<string>, rVld: Trace<string>, rResp: Trace<string>)
    returns (o: Outcome)
    requires TimeOrdered(arVld) && TimeOrdered(rst)
    ensures |clk| == 0 <==> o == NoClock
    ensures |clk| > 0 ==> o == ReadRows(ReadInputs(arVld, rVld, ActiveTimes(rst, "1"), rResp, clk[|clk| - 1]), Variant(true, true, false), |arVld|)
  {
    if |clk| == 0 {
      return NoClock;
    }
    ActiveTimesIncreasing(rst, "1");
    o := ReadCalculate(ReadInputs(arVld, rVld, ActiveTimes(rst, "1"), rResp, clk[|clk| - 1]), Variant(true, true, false));
    ReadRowsStop(ReadInputs(arVld, rVld, ActiveTimes(rst, "1"), rResp, clk[|clk| - 1]), Variant(true, true, false), |arVld|, |arVld|);
  }

  /** `AXIRdAnalyzer.analyze` of the AXIRdAnalyzer plugin: the same without looking at the reset. */
  method PythonReadNoReset(clk: seq<int>, arVld: Trace<string>, rVld: Trace<string>, rResp: Trace<string>)
    returns (o: Outcome)
    requires TimeOrdered(arVld)
    ensures |clk| == 0 <==> o == NoClock
    ensures |clk| > 0 ==> o == ReadRows(ReadInputs(arVld, rVld, [], rResp, clk[|clk| - 1]), Variant(true, false, false), |arVld|)
  {
    if |clk| == 0 {
      return NoClock;
    }
    o := ReadCalculate(ReadInputs(arVld, rVld, [], rResp, clk[|clk| - 1]), Variant(true, false, false));
    ReadRowsStop(ReadInputs(arVld, rVld, [], rResp, clk[|clk| - 1]), Variant(true, false, false), |arVld|, |arVld|);
  }

  /**
   * `AXIRdAnalyzer::calculate` of src/analyzer/axi_analyzer.rs: the reset count over all changes,
   * reset edges at the active value, first data at or after the address change, `u32` delays.
   */
  method RustReadCalculate(clk: seq<int>, rst: Trace<string>, active: string, arVld: Trace<string>, rVld: Trace<string>, rResp: Trace<string>)
    returns (reset: int, o: Outcome)
    requires TimeOrdered(arVld) && TimeOrdered(rst)
    ensures reset == AllResetTotal(rst, active, 0) / 2
    ensures |clk| == 0 <==> o == NoClock
    ensures |clk| > 0 ==> o == ReadRows(ReadInputs(arVld, rVld, ActiveTimes(rst, active), rResp, clk[|clk| - 1]), Variant(false, true, true), |arVld|)
  {
    reset := CountResetAll(rst, active);
    if |clk| == 0 {
      return reset, NoClock;
    }
    ActiveTimesIncreasing(rst, active);
    o := ReadCalculate(ReadInputs(arVld, rVld, ActiveTimes(rst, active), rResp, clk[|clk| - 1]), Variant(false, true, true));
    ReadRowsStop(ReadInputs(arVld, rVld, ActiveTimes(rst, active), rResp, clk[|clk| - 1]), Variant(false, true, true), |arVld|, |arVld|);
  }

  /** `AXIRdAnalyzer::analyze` of src/analyzer/axi_rd_analyzer.rs: the reset count, and no reset skipping. */
  method RustReadAnalyze(clk: seq<int>, rst: Trace<string>, active: string, arVld: Trace<string>, rVld: Trace<string>, rResp: Trace<string>)
    returns (reset: int, o: Outcome)
    requires TimeOrdered(arVld)
    ensures reset == AllResetTotal(rst, active, 0) / 2
    ensures |clk| == 0 <==> o == NoClock
    ensures |clk| > 0 ==> o == ReadRows(ReadInputs(arVld, rVld, [], rResp, clk[|clk| - 1]), Variant(false, false, true), |arVld|)
  {
    reset := CountResetAll(rst, active);
    if |clk| == 0 {
      return reset, NoClock;
    }
    o := ReadCalculate(ReadInputs(arVld, rVld, [], rResp, clk[|clk| - 1]), Variant(false, false, true));
    ReadRowsStop(ReadInputs(arVld, rVld, [], rResp, clk[|clk| - 1]), Variant(false, false, true), |arVld|, |arVld|);
  }

  /** `AXIWrAnalyzer::calculate` of src/analyzer/axi_analyzer.rs and `AXIWrAnalyzer::analyze` of src/analyzer/axi_wr_analyzer.rs. */
  method RustWriteCalculate(clk: seq<int>, awVld: Trace<string>, wVld: Trace<string>, bVld: Trace<string>, bResp: Trace<string>)
    returns (o: Outcome)
    ensures |clk| == 0 <==> o == NoClock
    ensures |clk| > 0 ==> o == WriteRows(WriteInputs(awVld, wVld, bVld, bResp, clk[|clk| - 1]), |awVld|)
  {
    if |clk| == 0 {
      return NoClock;
    }
    o := WriteCalculate(WriteInputs(awVld, wVld, bVld, bResp, clk[|clk| - 1]));
    WriteRowsStop(WriteInputs(awVld, wVld, bVld, bResp, clk[|clk| - 1]), |awVld|, |awVld|);
  }
}
