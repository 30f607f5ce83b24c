// The single-bus drivers: the clock-edge loop that samples the bus just before every counted rising
// edge and feeds one classified cycle per edge to the statistics, in its current form
// (src/analyze/analyzer/default_analyzer.rs) and its earlier one (src/analyzer.rs); and the analyzer
// builders with the check for configuration keys no analyzer reads.
module Drivers {
  import opened Wrappers
  import opened Cycles
  import opened Traces
  import opened Bus
  import opened Text
  import CU = CycleUsage
  import LU = LegacyUsage
  import opened Classifiers

  // ---------------------------------------------------------------- edges

  /** A clock change to a two-state single-bit 0: a falling edge, which the loop skips. */
  predicate FallingEdge(v: SignalValue)
  {
    v.Binary? && |v.bits| == 1 && v.bits[0] == '0'
  }

  /** The time lies inside one of the configured `[start, end]` intervals, or none are configured. */
  predicate InIntervals(intervals: seq<(int, int)>, time: int)
  {
    |intervals| == 0 || exists k :: 0 <= k < |intervals| && intervals[k].0 <= time <= intervals[k].1
  }

  /** Every clock change's time index has an entry in the time table. */
  predicate TimesInTable(clock: Trace<SignalValue>, timeTable: seq<int>)
  {
    forall i :: 0 <= i < |clock| ==> 0 <= clock[i].0 < |timeTable|
  }

  /** The analysed signals: the reset and the bus signals, the reset's active level, the intervals. */
  datatype Sampling = Sampling(
    reset: Trace<SignalValue>,
    signals: seq<Trace<SignalValue>>,
    rstActive: ValueType,
    intervals: seq<(int, int)>,
    timeTable: seq<int>)

  /** The change at time index `time` with value `v` is a counted edge. */
  predicate Counted(cfg: Sampling, time: int, v: SignalValue)
    requires |cfg.intervals| > 0 ==> 0 <= time < |cfg.timeTable|
  {
    !FallingEdge(v) && (|cfg.intervals| == 0 || InIntervals(cfg.intervals, cfg.timeTable[time]))
  }

  /** The time indices of the counted edges, in order. */
  function CountedTimes(cfg: Sampling, clock: Trace<SignalValue>): (r: seq<int>)
    requires |cfg.intervals| == 0 || TimesInTable(clock, cfg.timeTable)
    ensures |r| <= |clock|
  {
    if |clock| == 0 then []
    else
      var (time, v) := clock[|clock| - 1];
      CountedTimes(cfg, clock[..|clock| - 1]) + (if Counted(cfg, time, v) then [time] else [])
  }

  /** The value of every bus signal in effect at `t`; `None` when one of them has no value yet. */
  function SampleAll(signals: seq<Trace<SignalValue>>, t: int): (r: Option<seq<SignalValue>>)
    ensures r.Some? ==> |r.value| == |signals|
    ensures r.Some? <==> forall k :: 0 <= k < |signals| ==> LatestAtOrBefore(signals[k], t).Some?
    ensures r.Some? ==> forall k :: 0 <= k < |signals| ==> r.value[k] == LatestAtOrBefore(signals[k], t).value
  {
    if |signals| == 0 then Some([])
    else
      match (SampleAll(signals[..|signals| - 1], t), LatestAtOrBefore(signals[|signals| - 1], t))
      case (Some(vs), Some(v)) => Some(vs + [v])
      case _ => None
  }

  /** The reset is at its active level just before the edge at time index `time`. */
  predicate ResetActive(cfg: Sampling, time: int)
  {
    var rv := LatestAtOrBefore(cfg.reset, SatPred(time));
    rv.Some? && IsValueOfType(rv.value, cfg.rstActive) == Returns(true)
  }

  // ---------------------------------------------------------------- the current loop

  /**
   * One counted edge: the reset and the bus signals are read one time index before it (a missing
   * value panics); an active reset gives a reset cycle, anything else is what the bus description
   * makes of the bus signals. The description may keep state (`s`), as the credit/valid bus does.
   */
  function EdgeCycle<S>(cfg: Sampling, interpret: (S, seq<SignalValue>, int) -> (Outcome<CycleType>, S), s: S, time: int)
    : (r: Outcome<(CycleType, S)>)
    ensures r.Returns? ==> SampleAll(cfg.signals, SatPred(time)).Some?
    ensures r.Returns? && ResetActive(cfg, time) ==> r.value == (Reset, s)
    ensures r.Returns? && !ResetActive(cfg, time) ==>
              interpret(s, SampleAll(cfg.signals, SatPred(time)).value, SatPred(time)) == (Returns(r.value.0), r.value.1)
  {
    var t := SatPred(time);
    var rv, values := LatestAtOrBefore(cfg.reset, t), SampleAll(cfg.signals, t);
    if rv.None? || values.None? then Panics
    else
      match IsValueOfType(rv.value, cfg.rstActive) {
        case Panics => Panics
        case Returns(true) => Returns((Reset, s))
        case Returns(false) =>
          var (c, s') := interpret(s, values.value, t);
          if c.Panics? then Panics else Returns((c.value, s'))
      }
  }

  /** One more clock change: skipped, panicking, or one more cycle. */
  function Advance<S>(cfg: Sampling, interpret: (S, seq<SignalValue>, int) -> (Outcome<CycleType>, S),
                      acc: Outcome<(seq<CycleType>, S)>, change: (int, SignalValue)): (r: Outcome<(seq<CycleType>, S)>)
    requires |cfg.intervals| > 0 ==> 0 <= change.0 < |cfg.timeTable|
    ensures acc.Panics? ==> r.Panics?
    ensures acc.Returns? && !Counted(cfg, change.0, change.1) ==> r == acc
  {
    if acc.Panics? then Panics
    else if !Counted(cfg, change.0, change.1) then acc
    else
      var (ts, s) := acc.value;
      match EdgeCycle(cfg, interpret, s, change.0) {
        case Panics => Panics
        case Returns((c, s')) => Returns((ts + [c], s'))
      }
  }

  /** The cycles the loop adds for the clock changes `clock`, and the description's state after them. */
  function RunEdges<S>(cfg: Sampling, interpret: (S, seq<SignalValue>, int) -> (Outcome<CycleType>, S), s0: S,
                       clock: Trace<SignalValue>): Outcome<(seq<CycleType>, S)>
    requires |cfg.intervals| == 0 || TimesInTable(clock, cfg.timeTable)
  {
    if |clock| == 0 then Returns(([], s0))
    else Advance(cfg, interpret, RunEdges(cfg, interpret, s0, clock[..|clock| - 1]), clock[|clock| - 1])
  }

  lemma RunEdgesPrefix<S>(cfg: Sampling, interpret: (S, seq<SignalValue>, int) -> (Outcome<CycleType>, S), s0: S,
                          clock: Trace<SignalValue>, i: nat)
    requires |cfg.intervals| == 0 || TimesInTable(clock, cfg.timeTable)
    requires i < |clock|
    ensures |cfg.intervals| == 0 || TimesInTable(clock[..i], cfg.timeTable)
    ensures |cfg.intervals| == 0 || TimesInTable(clock[..i + 1], cfg.timeTable)
    ensures RunEdges(cfg, interpret, s0, clock[..i + 1]) == Advance(cfg, interpret, RunEdges(cfg, interpret, s0, clock[..i]), clock[i])
  {
    assert clock[..i + 1][..i] == clock[..i];
  }

  /** Once an edge panics, the whole analysis panics. */
  lemma {:induction false} RunEdgesPanicStays<S>(cfg: Sampling, interpret: (S, seq<SignalValue>, int) -> (Outcome<CycleType>, S), s0: S,
                                                 clock: Trace<SignalValue>, n: nat)
    requires |cfg.intervals| == 0 || TimesInTable(clock, cfg.timeTable)
    requires n <= |clock| && RunEdges(cfg, interpret, s0, clock[..n]).Panics?
    ensures RunEdges(cfg, interpret, s0, clock).Panics?
    decreases |clock| - n
  {
    if n < |clock| {
      RunEdgesPrefix(cfg, interpret, s0, clock, n);
      RunEdgesPanicStays(cfg, interpret, s0, clock, n + 1);
    } else {
      assert clock[..n] == clock;
    }
  }

  /** The bus description never answers `Reset` itself (none of the bus kinds does). */
  ghost predicate NeverReset<S(!new)>(interpret: (S, seq<SignalValue>, int) -> (Outcome<CycleType>, S))
  {
    forall s, vs, t :: interpret(s, vs, t).0 != Returns(Reset)
  }

  /**
   * Exactly one cycle per counted edge, and the cycle of an edge is a reset cycle exactly when the
   * reset is active just before that edge.
   */
  lemma {:induction false} RunEdgesPerEdge<S(!new)>(cfg: Sampling, interpret: (S, seq<SignalValue>, int) -> (Outcome<CycleType>, S), s0: S,
                                              clock: Trace<SignalValue>)
    requires |cfg.intervals| == 0 || TimesInTable(clock, cfg.timeTable)
    requires NeverReset(interpret) && RunEdges(cfg, interpret, s0, clock).Returns?
    ensures |RunEdges(cfg, interpret, s0, clock).value.0| == |CountedTimes(cfg, clock)|
    ensures forall i :: 0 <= i < |CountedTimes(cfg, clock)| ==>
              (RunEdges(cfg, interpret, s0, clock).value.0[i] == Reset <==> ResetActive(cfg, CountedTimes(cfg, clock)[i]))
    decreases |clock|
  {
    if |clock| > 0 {
      var init, last := clock[..|clock| - 1], clock[|clock| - 1];
      assert |cfg.intervals| == 0 || TimesInTable(init, cfg.timeTable);
      var prev := RunEdges(cfg, interpret, s0, init);
      assert prev.Returns?;
      RunEdgesPerEdge(cfg, interpret, s0, init);
      if Counted(cfg, last.0, last.1) {
        var e := EdgeCycle(cfg, interpret, prev.value.1, last.0);
        assert e.Returns?;
        assert ResetActive(cfg, last.0) <==> e.value.0 == Reset;
      }
    }
  }

  /** Without intervals every change except a falling edge is counted. */
  lemma {:induction false} NoIntervalsCountsRisingEdges(cfg: Sampling, clock: Trace<SignalValue>, i: nat)
    requires |cfg.intervals| == 0 && i < |clock| && !FallingEdge(clock[i].1)
    ensures clock[i].0 in CountedTimes(cfg, clock)
    decreases |clock|
  {
    if i < |clock| - 1 {
      NoIntervalsCountsRisingEdges(cfg, clock[..|clock| - 1], i);
    }
  }

  /** With intervals, a counted edge lies inside one of them. */
  lemma {:induction false} CountedInIntervals(cfg: Sampling, clock: Trace<SignalValue>, time: int)
    requires |cfg.intervals| > 0 && TimesInTable(clock, cfg.timeTable)
    requires time in CountedTimes(cfg, clock)
    ensures 0 <= time < |cfg.timeTable| && InIntervals(cfg.intervals, cfg.timeTable[time])
    decreases |clock|
  {
    var init := clock[..|clock| - 1];
    assert TimesInTable(init, cfg.timeTable);
    if time in CountedTimes(cfg, init) {
      CountedInIntervals(cfg, init, time);
    }
  }

  /** The counters after the cycles `ts`, from zero. */
  function TallyAll(ts: seq<CycleType>): CU.Counters
  {
    if |ts| == 0 then CU.Counters(0, 0, 0, 0, 0, 0) else CU.Tally(TallyAll(ts[..|ts| - 1]), ts[|ts| - 1])
  }

  /** Each counter holds the number of cycles of its type; unknown cycles are counted as no transaction. */
  lemma {:induction false} TallyAllCounts(ts: seq<CycleType>)
    ensures var c := TallyAll(ts); var m := multiset(ts);
            c.busy == m[Busy] && c.free == m[Free] && c.backpressure == m[Backpressure] && c.noData == m[NoData] &&
            c.reset == m[Reset] && c.noTransaction == m[NoTransaction] + m[Unknown]
    decreases |ts|
  {
    if |ts| > 0 {
      var init := ts[..|ts| - 1];
      TallyAllCounts(init);
      assert ts == init + [ts[|ts| - 1]];
      assert multiset(ts) == multiset(init) + multiset{ts[|ts| - 1]};
    }
  }

  /** The burst and delay state after the cycles `ts`, from a fresh accumulator. */
  function Replay(ts: seq<CycleType>, maxBurstDelay: int, clk: int): (m: CU.Machine)
    ensures CU.Shaped(m)
  {
    if |ts| == 0 then CU.Machine([], [], CU.Nothing)
    else CU.Step(Replay(ts[..|ts| - 1], maxBurstDelay, clk), ts[|ts| - 1], maxBurstDelay, clk)
  }

  /** One more cycle adds to the counters and steps the burst and delay state. */
  lemma TallyReplaySnoc(ts: seq<CycleType>, c: CycleType, maxBurstDelay: int, clk: int)
    ensures TallyAll(ts + [c]) == CU.Tally(TallyAll(ts), c)
    ensures Replay(ts + [c], maxBurstDelay, clk) == CU.Step(Replay(ts, maxBurstDelay, clk), c, maxBurstDelay, clk)
  {
    assert (ts + [c])[..|ts|] == ts;
  }

  /** The loop has walked the first `i` clock changes, giving the cycles `ts` and the description state `s`. */
  ghost predicate Walked<S>(cfg: Sampling, interpret: (S, seq<SignalValue>, int) -> (Outcome<CycleType>, S), s0: S,
                            clock: Trace<SignalValue>, i: nat, ts: seq<CycleType>, s: S)
    requires i <= |clock|
  {
    (|cfg.intervals| == 0 || TimesInTable(clock[..i], cfg.timeTable)) &&
    RunEdges(cfg, interpret, s0, clock[..i]) == Returns((ts, s))
  }

  /** One step of the loop: a skipped change, a counted edge, or a panicking edge. */
  lemma WalkStep<S>(cfg: Sampling, interpret: (S, seq<SignalValue>, int) -> (Outcome<CycleType>, S), s0: S,
                    clock: Trace<SignalValue>, i: nat, ts: seq<CycleType>, s: S)
    requires |cfg.intervals| == 0 || TimesInTable(clock, cfg.timeTable)
    requires i < |clock| && Walked(cfg, interpret, s0, clock, i, ts, s)
    ensures |cfg.intervals| > 0 ==> 0 <= clock[i].0 < |cfg.timeTable|
    ensures !Counted(cfg, clock[i].0, clock[i].1) ==> Walked(cfg, interpret, s0, clock, i + 1, ts, s)
    ensures Counted(cfg, clock[i].0, clock[i].1) && EdgeCycle(cfg, interpret, s, clock[i].0).Returns? ==>
              var (c, s') := EdgeCycle(cfg, interpret, s, clock[i].0).value;
              Walked(cfg, interpret, s0, clock, i + 1, ts + [c], s')
    ensures Counted(cfg, clock[i].0, clock[i].1) && EdgeCycle(cfg, interpret, s, clock[i].0).Panics? ==>
              RunEdges(cfg, interpret, s0, clock).Panics?
  {
    RunEdgesPrefix(cfg, interpret, s0, clock, i);
    if Counted(cfg, clock[i].0, clock[i].1) && EdgeCycle(cfg, interpret, s, clock[i].0).Panics? {
      RunEdgesPanicStays(cfg, interpret, s0, clock, i + 1);
    }
  }

  /** The body of the loop for the clock change `clock[i]`: skip it, or classify it and add the cycle. */
  method FeedEdge<S>(usage: CU.SingleChannelBusUsage, cfg: Sampling,
                     interpret: (S, seq<SignalValue>, int) -> (Outcome<CycleType>, S), ghost s0: S,
                     clock: Trace<SignalValue>, i: nat, ghost ts: seq<CycleType>, s: S)
    returns (panicked: bool, ghost ts': seq<CycleType>, s': S)
    requires |cfg.intervals| == 0 || TimesInTable(clock, cfg.timeTable)
    requires i < |clock| && Walked(cfg, interpret, s0, clock, i, ts, s)
    requires usage.Valid() && usage.Counts() == TallyAll(ts)
    requires usage.State() == Replay(ts, usage.maxBurstDelay, usage.clkPeriod)
    modifies usage
    ensures usage.Valid()
    ensures panicked ==> RunEdges(cfg, interpret, s0, clock).Panics?
    ensures !panicked ==> Walked(cfg, interpret, s0, clock, i + 1, ts', s') && usage.Counts() == TallyAll(ts') &&
                          usage.State() == Replay(ts', usage.maxBurstDelay, usage.clkPeriod)
  {
    WalkStep(cfg, interpret, s0, clock, i, ts, s);
    var (time, value) := clock[i];
    ts', s' := ts, s;
    panicked := false;
    if Counted(cfg, time, value) {
      var e := EdgeCycle(cfg, interpret, s, time);
      if e.Panics? {
        return true, ts, s;
      }
      var c;
      c, s' := e.value.0, e.value.1;
      TallyReplaySnoc(ts, c, usage.maxBurstDelay, usage.clkPeriod);
      usage.AddCycle(c);
      ts' := ts + [c];
    }
  }

  /**
   * `analyze_single_bus`: walks the clock changes, skips falling edges and edges outside the
   * intervals, and adds one classified cycle per remaining edge to a fresh accumulator.
   */
  method AnalyzeSingleBus<S>(cfg: Sampling, interpret: (S, seq<SignalValue>, int) -> (Outcome<CycleType>, S), s0: S,
                             clock: Trace<SignalValue>, busName: string, maxBurstDelay: int, clockPeriod: int)
    returns (usage: CU.SingleChannelBusUsage, panicked: bool)
    requires |cfg.intervals| == 0 || TimesInTable(clock, cfg.timeTable)
    ensures fresh(usage) && usage.Valid() && usage.busName == busName
    ensures panicked <==> RunEdges(cfg, interpret, s0, clock).Panics?
    ensures !panicked ==> usage.Counts() == TallyAll(RunEdges(cfg, interpret, s0, clock).value.0)
    ensures !panicked ==> usage.State() == Replay(RunEdges(cfg, interpret, s0, clock).value.0, maxBurstDelay, clockPeriod)
  {
    usage := new CU.SingleChannelBusUsage(busName, maxBurstDelay, clockPeriod);
    var s := s0;
    ghost var ts: seq<CycleType> := [];
    var i := 0;
    while i < |clock|
      invariant 0 <= i <= |clock|
      invariant fresh(usage) && usage.Valid() && usage.busName == busName
      invariant usage.maxBurstDelay == maxBurstDelay && usage.clkPeriod == clockPeriod
      invariant Walked(cfg, interpret, s0, clock, i, ts, s)
      invariant usage.Counts() == TallyAll(ts) && usage.State() == Replay(ts, maxBurstDelay, clockPeriod)
    {
      var stop;
      stop, ts, s := FeedEdge(usage, cfg, interpret, s0, clock, i, ts, s);
      if stop {
        return usage, true;
      }
      i := i + 1;
    }
    assert clock[..i] == clock;
    panicked := false;
  }

  /** The current bus descriptions as the loop sees them; a missing signal value panics like `signals[k]`. */
  function AxiInterpret(u: (), vs: seq<SignalValue>, t: int): (Outcome<CycleType>, ())
  {
    if |vs| < 2 then (Panics, ()) else (AxiCycle(vs[0], vs[1]), ())
  }

  function ApbInterpret(u: (), vs: seq<SignalValue>, t: int): (Outcome<CycleType>, ())
  {
    if |vs| < 3 then (Panics, ()) else (Returns(ApbCycle(vs[0], vs[1], vs[2])), ())
  }

  /** The credit/valid description threads its credit counter through the loop. */
  function CreditInterpret(credits: nat, vs: seq<SignalValue>, t: int): (Outcome<CycleType>, nat)
  {
    if |vs| < 2 then (Panics, credits)
    else var (c, n) := CreditStep(credits, vs[0], vs[1]); (Returns(c), n)
  }

  /** No built-in bus description answers `Reset`, so the reset cycles are exactly the active-reset edges. */
  lemma BuiltInNeverReset()
    ensures NeverReset(AxiInterpret) && NeverReset(ApbInterpret) && NeverReset(CreditInterpret)
  {
  }

  // ---------------------------------------------------------------- the earlier loop

  /** The earlier driver's signals; the reset's active value is a number compared as text. */
  datatype LegacySampling = LegacySampling(reset: Trace<SignalValue>, signals: seq<Trace<SignalValue>>, rstActive: nat)

  /** The reset's bit string just before the edge is the active value written in decimal. */
  predicate LegacyResetActive(cfg: LegacySampling, time: int)
  {
    var rv := LatestAtOrBefore(cfg.reset, SatPred(time));
    rv.Some? && ToBitString(rv.value) == Some(NatToString(cfg.rstActive))
  }

  /**
   * One rising edge of the earlier loop: a missing value or a reset without a bit string panics;
   * a reset whose bit string is the active value gives a reset cycle; otherwise the stateless bus
   * description classifies the bus signals (and may panic).
   */
  function LegacyEdgeCycle(cfg: LegacySampling, interpret: (seq<SignalValue>, int) -> Outcome<CycleType>, time: int)
    : (r: Outcome<CycleType>)
    ensures r.Returns? ==> SampleAll(cfg.signals, SatPred(time)).Some?
    ensures r.Returns? && LegacyResetActive(cfg, time) ==> r.value == Reset
    ensures r.Returns? && !LegacyResetActive(cfg, time) ==>
              r == interpret(SampleAll(cfg.signals, SatPred(time)).value, SatPred(time))
  {
    var t := SatPred(time);
    var rv, values := LatestAtOrBefore(cfg.reset, t), SampleAll(cfg.signals, t);
    if rv.None? || values.None? || ToBitString(rv.value).None? then Panics
    else if ToBitString(rv.value).value != NatToString(cfg.rstActive) then interpret(values.value, t)
    else Returns(Reset)
  }

  function LegacyAdvance(cfg: LegacySampling, interpret: (seq<SignalValue>, int) -> Outcome<CycleType>,
                         acc: Outcome<seq<CycleType>>, change: (int, SignalValue)): (r: Outcome<seq<CycleType>>)
    ensures acc.Panics? ==> r.Panics?
    ensures acc.Returns? && FallingEdge(change.1) ==> r == acc
  {
    if acc.Panics? then Panics
    else if FallingEdge(change.1) then acc
    else
      match LegacyEdgeCycle(cfg, interpret, change.0) {
        case Panics => Panics
        case Returns(c) => Returns(acc.value + [c])
      }
  }

  /** The cycles the earlier loop adds for the clock changes `clock`. */
  function LegacyRunEdges(cfg: LegacySampling, interpret: (seq<SignalValue>, int) -> Outcome<CycleType>,
                          clock: Trace<SignalValue>): Outcome<seq<CycleType>>
  {
    if |clock| == 0 then Returns([])
    else LegacyAdvance(cfg, interpret, LegacyRunEdges(cfg, interpret, clock[..|clock| - 1]), clock[|clock| - 1])
  }

  lemma LegacyRunEdgesPrefix(cfg: LegacySampling, interpret: (seq<SignalValue>, int) -> Outcome<CycleType>,
                             clock: Trace<SignalValue>, i: nat)
    requires i < |clock|
    ensures LegacyRunEdges(cfg, interpret, clock[..i + 1]) ==
            LegacyAdvance(cfg, interpret, LegacyRunEdges(cfg, interpret, clock[..i]), clock[i])
  {
    assert clock[..i + 1][..i] == clock[..i];
  }

  lemma {:induction false} LegacyPanicStays(cfg: LegacySampling, interpret: (seq<SignalValue>, int) -> Outcome<CycleType>,
                                            clock: Trace<SignalValue>, n: nat)
    requires n <= |clock| && LegacyRunEdges(cfg, interpret, clock[..n]).Panics?
    ensures LegacyRunEdges(cfg, interpret, clock).Panics?
    decreases |clock| - n
  {
    if n < |clock| {
      LegacyRunEdgesPrefix(cfg, interpret, clock, n);
      LegacyPanicStays(cfg, interpret, clock, n + 1);
    } else {
      assert clock[..n] == clock;
    }
  }

  /** The time indices of the changes that are not falling edges. */
  function RisingTimes(clock: Trace<SignalValue>): (r: seq<int>)
    ensures |r| <= |clock|
  {
    if |clock| == 0 then []
    else RisingTimes(clock[..|clock| - 1]) + (if FallingEdge(clock[|clock| - 1].1) then [] else [clock[|clock| - 1].0])
  }

  /**
   * The earlier loop adds one cycle per change that is not a falling edge, and that cycle is a
   * reset cycle exactly when the reset's bit string is the active value.
   */
  lemma {:induction false} LegacyRunEdgesPerEdge(cfg: LegacySampling, interpret: (seq<SignalValue>, int) -> Outcome<CycleType>,
                                                 clock: Trace<SignalValue>)
    requires forall vs, t :: interpret(vs, t) != Returns(Reset)
    requires LegacyRunEdges(cfg, interpret, clock).Returns?
    ensures |LegacyRunEdges(cfg, interpret, clock).value| == |RisingTimes(clock)|
    ensures forall i :: 0 <= i < |RisingTimes(clock)| ==>
              (LegacyRunEdges(cfg, interpret, clock).value[i] == Reset <==> LegacyResetActive(cfg, RisingTimes(clock)[i]))
    decreases |clock|
  {
    if |clock| > 0 {
      var init, last := clock[..|clock| - 1], clock[|clock| - 1];
      var prev := LegacyRunEdges(cfg, interpret, init);
      assert prev.Returns?;
      LegacyRunEdgesPerEdge(cfg, interpret, init);
      if !FallingEdge(last.1) {
        var e := LegacyEdgeCycle(cfg, interpret, last.0);
        assert e.Returns?;
        assert LegacyResetActive(cfg, last.0) <==> e.value == Reset;
      }
    }
  }

  /** The body of the earlier loop for the clock change `clock[i]`. */
  method LegacyFeedEdge(usage: LU.SingleChannelBusUsage, cfg: LegacySampling,
                        interpret: (seq<SignalValue>, int) -> Outcome<CycleType>, clock: Trace<SignalValue>, i: nat)
    returns (panicked: bool)
    requires i < |clock| && usage.Valid()
    requires LegacyRunEdges(cfg, interpret, clock[..i]) == Returns(usage.history)
    requires usage.Counts() == TallyAll(usage.history)
    modifies usage
    ensures usage.Valid()
    ensures panicked ==> LegacyRunEdges(cfg, interpret, clock).Panics?
    ensures !panicked ==> LegacyRunEdges(cfg, interpret, clock[..i + 1]) == Returns(usage.history) &&
                          usage.Counts() == TallyAll(usage.history)
  {
    LegacyRunEdgesPrefix(cfg, interpret, clock, i);
    var (time, value) := clock[i];
    if !FallingEdge(value) {
      var e := LegacyEdgeCycle(cfg, interpret, time);
      if e.Panics? {
        LegacyPanicStays(cfg, interpret, clock, i + 1);
        return true;
      }
      TallyReplaySnoc(usage.history, e.value, 0, 0);
      usage.AddCycle(e.value);
    }
    panicked := false;
  }

  /**
   * The earlier `analyze_single_bus`: one classified cycle per rising edge, then `end` once, so the
   * last open burst and delay are closed and every bucket array counts its whole list.
   */
  method LegacyAnalyzeSingleBus(cfg: LegacySampling, interpret: (seq<SignalValue>, int) -> Outcome<CycleType>,
                                clock: Trace<SignalValue>, busName: string, maxBurstDelay: int)
    returns (usage: LU.SingleChannelBusUsage, panicked: bool)
    ensures fresh(usage) && usage.busName == busName
    ensures panicked <==> LegacyRunEdges(cfg, interpret, clock).Panics?
    ensures !panicked ==> usage.history == LegacyRunEdges(cfg, interpret, clock).value
    ensures !panicked ==> usage.Counts() == TallyAll(usage.history)
    ensures !panicked ==> usage.State() == LU.EndStep(LU.Run(usage.history, maxBurstDelay))
    ensures !panicked ==> LU.Finished(usage.transactionDelays, usage.transactionDelayBuckets)
    ensures !panicked ==> LU.Finished(usage.burstLengths, usage.burstLengthBuckets)
  {
    usage := new LU.SingleChannelBusUsage(busName, maxBurstDelay);
    var i := 0;
    while i < |clock|
      invariant 0 <= i <= |clock|
      invariant fresh(usage) && usage.Valid() && usage.busName == busName && usage.maxBurstDelay == maxBurstDelay
      invariant LegacyRunEdges(cfg, interpret, clock[..i]) == Returns(usage.history)
      invariant usage.Counts() == TallyAll(usage.history)
    {
      var stop := LegacyFeedEdge(usage, cfg, interpret, clock, i);
      if stop {
        return usage, true;
      }
      i := i + 1;
    }
    assert clock[..i] == clock;
    usage.End();
    panicked := false;
  }

  // ---------------------------------------------------------------- builders

  /** The analyzer a bus entry selects. */
  datatype AnalyzerKind = AxiWrAnalyzer | AxiRdAnalyzer | PythonAnalyzer(plugin: string) | DefaultAnalyzer(bus: Handshake)

  /**
   * The current `AnalyzerBuilder::build`: `custom_analyzer` names one of the two AXI analyzers or
   * a Python plugin (an error when plugins are compiled out); without it the bus gets the default
   * analyzer with the bus description its `handshake` selects.
   */
  function BuildAnalyzer(name: Yaml, dict: Yaml, pythonPlugins: bool): (r: Result<AnalyzerKind>)
    ensures r.Ok? && r.value.DefaultAnalyzer? <==>
              AsStr(Index(dict, "custom_analyzer")).None? && name.YString? && BuildBusDescription(dict).Ok?
    ensures r.Ok? && r.value.DefaultAnalyzer? ==> r.value.bus == BuildBusDescription(dict).value
    ensures r.Ok? && r.value.PythonAnalyzer? ==>
              pythonPlugins && name.YString? && AsStr(Index(dict, "custom_analyzer")) == Some(r.value.plugin) &&
              r.value.plugin !in {"AXIWrAnalyzer", "AXIRdAnalyzer"}
    ensures AsStr(Index(dict, "custom_analyzer")) == Some("AXIWrAnalyzer") ==> r == Ok(AxiWrAnalyzer)
    ensures AsStr(Index(dict, "custom_analyzer")) == Some("AXIRdAnalyzer") ==> r == Ok(AxiRdAnalyzer)
    ensures !pythonPlugins && AsStr(Index(dict, "custom_analyzer")).Some? ==> 
              (r.Ok? <==> AsStr(Index(dict, "custom_analyzer")).value in {"AXIWrAnalyzer", "AXIRdAnalyzer"})
  {
    match AsStr(Index(dict, "custom_analyzer"))
    case Some(custom) =>
      if custom == "AXIWrAnalyzer" then Ok(AxiWrAnalyzer)
      else if custom == "AXIRdAnalyzer" then Ok(AxiRdAnalyzer)
      else if !pythonPlugins then Err("Analyzer " + custom + " does not exist or Python plugins are disabled")
      else if !name.YString? then Err("Bus should have a valid name")
      else Ok(PythonAnalyzer(custom))
    case None =>
      if !name.YString? then Err("Name of bus should be a valid string")
      else
        match BuildBusDescription(dict)
        case Err(e) => Err(e)
        case Ok(h) => Ok(DefaultAnalyzer(h))
  }

  /** The earlier builder knows one custom analyzer by name; any other custom name is a Python plugin. */
  datatype LegacyAnalyzerKind = LegacyAxiWr | LegacyPython(plugin: string) | LegacyDefault

  /** The earlier `AnalyzerBuilder::build`. */
  function LegacyBuildAnalyzer(dict: Yaml): (r: LegacyAnalyzerKind)
    ensures r == LegacyDefault <==> AsStr(Index(dict, "custom_analyzer")).None?
    ensures r == LegacyAxiWr <==> AsStr(Index(dict, "custom_analyzer")) == Some("AXIWrAnalyzer")
    ensures r.LegacyPython? ==> AsStr(Index(dict, "custom_analyzer")) == Some(r.plugin) && r.plugin != "AXIWrAnalyzer"
  {
    match AsStr(Index(dict, "custom_analyzer"))
    case Some(custom) => if custom == "AXIWrAnalyzer" then LegacyAxiWr else LegacyPython(custom)
    case None => LegacyDefault
  }

  /** The earlier builder sends the AXI read analyzer's name to the Python plugins; the current one knows it. */
  lemma BuildersDifferOnAxiRd(name: Yaml, dict: Yaml)
    requires AsStr(Index(dict, "custom_analyzer")) == Some("AXIRdAnalyzer")
    ensures LegacyBuildAnalyzer(dict) == LegacyPython("AXIRdAnalyzer")
    ensures BuildAnalyzer(name, dict, false) == Ok(AxiRdAnalyzer)
  {
  }

  // ---------------------------------------------------------------- unused configuration

  /** A warning of `check_unused_signals`. */
  datatype Warning = UnusedValue(path: string) | NonStringKey(path: string, key: Yaml)

  /** Configuration keys every analyzer reads. */
  const COMMON_YAML: seq<string> := [
    "scope", "clk_rst_if.clock", "clock", "clk_rst_if.reset", "reset", "clk_rst_if.reset_type",
    "reset_type", "custom_analyzer", "intervals", "custom_handshake", "handshake"]

  const DEFAULT_YAML: seq<string> := COMMON_YAML + ["ready", "valid", "handshake"]

  const AXI_RD_YAML: seq<string> := COMMON_YAML + [
    "ar.id", "ar.ready", "ar.valid", "r.id", "r.ready", "r.valid", "r.resp", "r.last"]

  const AXI_WR_YAML: seq<string> := COMMON_YAML + [
    "aw.id", "aw.ready", "aw.valid", "w.ready", "w.valid", "w.last", "b.ready", "b.valid", "b.resp", "b.id"]

  /** `required_yaml_definitions`: a Python analyzer reports the keys its plugin asked for. */
  function RequiredYaml(kind: AnalyzerKind, pluginKeys: seq<string>): (r: seq<string>)
    ensures COMMON_YAML <= r || kind.PythonAnalyzer?
  {
    match kind
    case AxiWrAnalyzer => AXI_WR_YAML
    case AxiRdAnalyzer => AXI_RD_YAML
    case PythonAnalyzer(_) => pluginKeys
    case DefaultAnalyzer(_) => DEFAULT_YAML
  }

  /**
   * `check_unused_signals`: walks the configuration hash in order, extending the dotted path with
   * each string key; every non-hash value whose path the analyzer does not read is reported, and
   * so is every key that is not a string.
   */
  function UnusedKeys(yaml: Yaml, used: seq<string>, path: seq<string>): (r: seq<Warning>)
    ensures forall k :: 0 <= k < |r| && r[k].UnusedValue? ==> r[k].path !in used
    decreases yaml, 1
  {
    if yaml.YHash? then UnusedEntries(yaml, 0, used, path)
    else if Join(path, ".") in used then []
    else [UnusedValue(Join(path, "."))]
  }

  function UnusedEntries(hash: Yaml, i: nat, used: seq<string>, path: seq<string>): (r: seq<Warning>)
    requires hash.YHash? && i <= |hash.entries|
    ensures forall k :: 0 <= k < |r| && r[k].UnusedValue? ==> r[k].path !in used
    decreases hash, 0, |hash.entries| - i
  {
    if i == |hash.entries| then []
    else
      var (key, value) := hash.entries[i];
      assert hash.entries[i] in hash.entries;
      (if key.YString? then UnusedKeys(value, used, path + [key.s]) else [NonStringKey(Join(path, "."), key)]) +
      UnusedEntries(hash, i + 1, used, path)
  }

  /** Every leaf of the configuration sits under string keys whose dotted path is read. */
  predicate AllRead(yaml: Yaml, used: seq<string>, path: seq<string>)
    decreases yaml
  {
    if yaml.YHash? then
      forall k :: 0 <= k < |yaml.entries| ==>
        yaml.entries[k].0.YString? && AllRead(yaml.entries[k].1, used, path + [yaml.entries[k].0.s])
    else Join(path, ".") in used
  }

  /** A configuration every part of which is read produces no warning. */
  lemma {:induction false} AllReadNoWarnings(yaml: Yaml, used: seq<string>, path: seq<string>)
    requires AllRead(yaml, used, path)
    ensures UnusedKeys(yaml, used, path) == []
    decreases yaml, 1
  {
    if yaml.YHash? {
      AllReadEntries(yaml, 0, used, path);
    }
  }

  lemma {:induction false} AllReadEntries(hash: Yaml, i: nat, used: seq<string>, path: seq<string>)
    requires hash.YHash? && i <= |hash.entries| && AllRead(hash, used, path)
    ensures UnusedEntries(hash, i, used, path) == []
    decreases hash, 0, |hash.entries| - i
  {
    if i < |hash.entries| {
      assert hash.entries[i] in hash.entries;
      AllReadNoWarnings(hash.entries[i].1, used, path + [hash.entries[i].0.s]);
      AllReadEntries(hash, i + 1, used, path);
    }
  }

  /** Following the string keys `keys` from `yaml`, through any entry with that key, ends at a value that is not a hash. */
  ghost predicate LeafUnder(yaml: Yaml, keys: seq<string>)
    decreases |keys|
  {
    if keys == [] then !yaml.YHash?
    else yaml.YHash? &&
         exists k :: 0 <= k < |yaml.entries| && yaml.entries[k].0 == YString(keys[0]) && LeafUnder(yaml.entries[k].1, keys[1..])
  }

  /** A warning the walk of a later entry gives is among the warnings of the walk from entry `i`. */
  lemma {:induction false} EntriesInclude(hash: Yaml, i: nat, k: nat, used: seq<string>, path: seq<string>, w: Warning)
    requires hash.YHash? && i <= k < |hash.entries| && hash.entries[k].0.YString?
    requires w in UnusedKeys(hash.entries[k].1, used, path + [hash.entries[k].0.s])
    ensures w in UnusedEntries(hash, i, used, path)
    decreases k - i
  {
    if i < k {
      EntriesInclude(hash, i + 1, k, used, path, w);
    }
  }

  /** A value warning of the walk from entry `i` comes from the walk of one entry `k` with a string key. */
  lemma {:induction false} EntriesSource(hash: Yaml, i: nat, used: seq<string>, path: seq<string>, w: Warning) returns (k: nat)
    requires hash.YHash? && i <= |hash.entries| && w.UnusedValue? && w in UnusedEntries(hash, i, used, path)
    ensures i <= k < |hash.entries| && hash.entries[k].0.YString?
    ensures w in UnusedKeys(hash.entries[k].1, used, path + [hash.entries[k].0.s])
    decreases |hash.entries| - i
  {
    var (key, value) := hash.entries[i];
    if key.YString? && w in UnusedKeys(value, used, path + [key.s]) {
      k := i;
    } else {
      k := EntriesSource(hash, i + 1, used, path, w);
    }
  }

  /** Every leaf reached through string keys whose dotted path is not read is reported with that path. */
  lemma {:induction false} UnreadLeafReported(yaml: Yaml, used: seq<string>, path: seq<string>, keys: seq<string>)
    requires LeafUnder(yaml, keys) && Join(path + keys, ".") !in used
    ensures UnusedValue(Join(path + keys, ".")) in UnusedKeys(yaml, used, path)
    decreases |keys|
  {
    if keys == [] {
      assert path + keys == path;
    } else {
      var k :| 0 <= k < |yaml.entries| && yaml.entries[k].0 == YString(keys[0]) && LeafUnder(yaml.entries[k].1, keys[1..]);
      assert (path + [keys[0]]) + keys[1..] == path + keys;
      UnreadLeafReported(yaml.entries[k].1, used, path + [keys[0]], keys[1..]);
      EntriesInclude(yaml, 0, k, used, path, UnusedValue(Join(path + keys, ".")));
    }
  }

  /** Every value warning names a leaf reached through string keys, by its dotted path. */
  lemma {:induction false} ReportedIsLeaf(yaml: Yaml, used: seq<string>, path: seq<string>, w: Warning) returns (keys: seq<string>)
    requires w.UnusedValue? && w in UnusedKeys(yaml, used, path)
    ensures LeafUnder(yaml, keys) && w.path == Join(path + keys, ".")
    decreases yaml
  {
    if !yaml.YHash? {
      keys := [];
      assert path + keys == path;
    } else {
      var k := EntriesSource(yaml, 0, used, path, w);
      assert yaml.entries[k] in yaml.entries;
      var key := yaml.entries[k].0.s;
      var rest := ReportedIsLeaf(yaml.entries[k].1, used, path + [key], w);
      keys := [key] + rest;
      assert keys[1..] == rest && keys[0] == key;
      assert (path + [key]) + rest == path + keys;
    }
  }

  /** A key no analyzer reads is reported with its dotted path. */
  lemma UnusedKeyReported()
    ensures UnusedKeys(YHash([(YString("handshake"), YString("ReadyValid")),
                              (YString("ar"), YHash([(YString("id"), YString("arid"))]))]), DEFAULT_YAML, []) ==
            [UnusedValue("ar.id")]
  {
    assert Join(["handshake"], ".") == "handshake";
    assert Join(["ar", "id"], ".") == "ar.id";
    assert "ar.id" !in DEFAULT_YAML;
  }

  /** `build` with its warnings: the analyzer and what `check_unused_signals` reports for it. */
  function BuildChecked(name: Yaml, dict: Yaml, pythonPlugins: bool, pluginKeys: seq<string>)
    : (r: Result<(AnalyzerKind, seq<Warning>)>)
    ensures r.Ok? <==> BuildAnalyzer(name, dict, pythonPlugins).Ok?
    ensures r.Ok? ==> r.value.0 == BuildAnalyzer(name, dict, pythonPlugins).value
    ensures r.Ok? && AllRead(dict, RequiredYaml(r.value.0, pluginKeys), []) ==> r.value.1 == []
  {
    match BuildAnalyzer(name, dict, pythonPlugins)
    case Err(e) => Err(e)
    case Ok(kind) =>
      var used := RequiredYaml(kind, pluginKeys);
      if AllRead(dict, used, []) then
        AllReadNoWarnings(dict, used, []);
        Ok((kind, UnusedKeys(dict, used, [])))
      else Ok((kind, UnusedKeys(dict, used, [])))
  }
}
