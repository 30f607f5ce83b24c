// Attribute sampling of the Rust AXI analyzer (src/analyze/analyzer/axi_analyzer.rs): values are
// read from the change in effect one time index before the event.
module AxiSampling {
  import opened Wrappers
  import opened Traces
  import opened Bus

  /** `get_value_at_time`: the change in effect at time index `t`, if any. */
  function ValueAtTime(sig: Trace<SignalValue>, t: int): Option<SignalValue>
  {
    LatestAtOrBefore(sig, t)
  }

  /** The bit string of the value in effect at `t` (`get_value_at(get_offset(t)?).to_bit_string()`). */
  function BitsAt(sig: Trace<SignalValue>, t: int): (r: Option<string>)
    ensures r.Some? ==> ValueAtTime(sig, t).Some? && ToBitString(ValueAtTime(sig, t).value) == r
    ensures ValueAtTime(sig, t).None? ==> r.None?
  {
    match ValueAtTime(sig, t)
    case None => None
    case Some(v) => ToBitString(v)
  }

  /** `get_id_value`: the bit string of the value in effect just before `t` (saturating at 0). */
  function GetIdValue(sig: Trace<SignalValue>, t: int): (r: Option<string>)
    ensures r.Some? ==> ValueAtTime(sig, SatPred(t)).Some? && ToBitString(ValueAtTime(sig, SatPred(t)).value) == r
    ensures ValueAtTime(sig, SatPred(t)).None? ==> r.None?
  {
    BitsAt(sig, SatPred(t))
  }

  /** `get_logic_value`: the single-bit level in effect just before `t`. */
  function GetLogicValue(sig: Trace<SignalValue>, t: int): (r: Option<ValueType>)
    ensures r.Some? ==> ValueAtTime(sig, SatPred(t)).Some? && GetValue(ValueAtTime(sig, SatPred(t)).value) == r
    ensures ValueAtTime(sig, SatPred(t)).None? ==> r.None?
  {
    match ValueAtTime(sig, SatPred(t))
    case None => None
    case Some(v) => GetValue(v)
  }

  /** On a time-sorted trace, the sampled value is the one of the last change strictly before `t` (or at 0). */
  lemma SampledBeforeEvent(sig: Trace<SignalValue>, t: int, i: int)
    requires forall a, b :: 0 <= a < b < |sig| ==> sig[a].0 < sig[b].0
    requires 0 <= i < |sig| && sig[i].0 <= SatPred(t) && (i + 1 == |sig| || sig[i + 1].0 > SatPred(t))
    ensures GetIdValue(sig, t) == ToBitString(sig[i].1)
    ensures GetLogicValue(sig, t) == GetValue(sig[i].1)
  {
    LatestIsInEffect(sig, SatPred(t), i);
  }
}
