// The reset cursor the AXI matching engines keep: `next_rst` walks the reset events and falls back
// to one past the end of the trace once they are used up.
module Resets {
  import opened Traces

  /** `next_rst` while the cursor stands at reset `kr`: that reset, or the sentinel `timeEnd + 1`. */
  function NextRst(rst: seq<int>, kr: int, timeEnd: int): int
    requires 0 <= kr <= |rst|
  {
    if kr < |rst| then rst[kr] else timeEnd + 1
  }

  /** The cursor `kr` has passed only resets before the latest of the first `i` events. */
  predicate ResetsBefore(rst: seq<int>, events: seq<int>, kr: int, i: int)
  {
    0 <= kr <= |rst| && 0 <= i <= |events| && (kr > 0 ==> i > 0 && rst[kr - 1] < events[i - 1])
  }

  /**
   * Where the cursor `kr` comes to rest when it is moved up to `time`, and whether it is stuck
   * there: the first position whose `next_rst` is at or after `time`, or the end of the resets
   * with the sentinel still before `time`.
   */
  function Advanced(rst: seq<int>, timeEnd: int, kr: int, time: int): (a: (int, bool))
    requires 0 <= kr <= |rst|
    ensures kr <= a.0 <= |rst|
    ensures a.1 <==> time > timeEnd + 1 && a.0 == |rst|
    ensures !a.1 ==> time <= NextRst(rst, a.0, timeEnd)
    ensures forall m :: kr <= m < a.0 ==> rst[m] < time
    decreases |rst| - kr
  {
    if NextRst(rst, kr, timeEnd) >= time then (kr, false)
    else if kr == |rst| then (kr, true)
    else Advanced(rst, timeEnd, kr + 1, time)
  }

  /**
   * `while next_rst < time: next_rst = next(rst, time_end + 1)`: moves the cursor `kr` to the first
   * reset at or after `time`; `stuck` when the sentinel itself is before `time`, where the loop
   * never ends.
   */
  method AdvanceReset(rst: seq<int>, timeEnd: int, kr0: int, time: int) returns (kr: int, stuck: bool)
    requires StrictlyIncreasing(rst) && 0 <= kr0 <= |rst| && (kr0 > 0 ==> rst[kr0 - 1] < time)
    ensures (kr, stuck) == Advanced(rst, timeEnd, kr0, time)
    ensures 0 <= kr <= |rst| && (kr > 0 ==> rst[kr - 1] < time)
    ensures stuck <==> time > timeEnd + 1 && kr == |rst|
    ensures !stuck ==> time <= NextRst(rst, kr, timeEnd)
  {
    kr := kr0;
    while NextRst(rst, kr, timeEnd) < time
      invariant 0 <= kr <= |rst| && (kr > 0 ==> rst[kr - 1] < time)
      invariant Advanced(rst, timeEnd, kr, time) == Advanced(rst, timeEnd, kr0, time)
      decreases |rst| - kr
    {
      if kr == |rst| {
        return kr, true;
      }
      kr := kr + 1;
    }
    return kr, false;
  }

  /** Between an event and a later time no later than the next reset, no reset occurs. */
  lemma ResetFree(rst: seq<int>, kr: int, time: int, read: int)
    requires StrictlyIncreasing(rst) && 0 <= kr <= |rst|
    requires kr > 0 ==> rst[kr - 1] < time
    requires kr < |rst| ==> read <= rst[kr]
    ensures NoneWithin(rst, time, read)
  {
    forall m | 0 <= m < |rst| ensures !(time <= rst[m] < read) {
      if m >= kr { assert rst[kr] <= rst[m]; } else { assert rst[m] <= rst[kr - 1]; }
    }
  }
}
