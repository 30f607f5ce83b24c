// The single-channel statistics of libbusperf: one call per clock cycle tallies the cycle and grows
// either the current burst (busy cycles) or the current delay (other cycles), with gaps of up to
// `max_burst_delay` idle cycles inside a burst held as a pending pause.
module CycleUsage {
  import opened Cycles

  /** Waveform times of the start and the end of a period, and its length in clock cycles. */
  datatype Period = Period(start: int, end: int, duration: int)

  /** `n` clock periods of length `clk`, as repeated addition (none when `n` is not positive). */
  function Ticks(n: int, clk: int): int
    decreases n
  {
    if n <= 0 then 0 else Ticks(n - 1, clk) + clk
  }

  lemma {:induction false} TicksMul(n: nat, clk: int)
    ensures Ticks(n, clk) == n * clk
  {
    if n > 0 {
      TicksMul(n - 1, clk);
      assert n * clk == (n - 1) * clk + clk;
    }
  }

  lemma {:induction false} TicksAdd(a: nat, b: nat, clk: int)
    ensures Ticks(a + b, clk) == Ticks(a, clk) + Ticks(b, clk)
    decreases b
  {
    if b > 0 {
      TicksAdd(a, b - 1, clk);
    }
  }

  /** A period of at least one cycle whose end is the start of its last cycle, `clk` apart. */
  predicate Spans(p: Period, clk: int)
  {
    p.duration >= 1 && p.end == p.start + Ticks(p.duration - 1, clk)
  }

  /** `Period::with_duration`. */
  function WithDuration(start: int, duration: int, clk: int): (p: Period)
    ensures p.start == start && p.duration == duration
    ensures duration >= 1 ==> Spans(p, clk)
  {
    var p := Period(start, start + (duration - 1) * clk, duration);
    if duration >= 1 then TicksMul(duration - 1, clk); p else p
  }

  /** `Period::add_n_cycles`: the period grows by `n` cycles at its end. */
  function AddNCycles(p: Period, n: int, clk: int): (q: Period)
    ensures q.start == p.start && q.duration == p.duration + n
    ensures n >= 0 ==> q.end == p.end + Ticks(n, clk)
    ensures n >= 0 && Spans(p, clk) ==> Spans(q, clk)
  {
    var q := Period(p.start, p.end + n * clk, p.duration + n);
    if n < 0 then q
    else if p.duration >= 1 then TicksMul(n, clk); TicksAdd(p.duration - 1, n, clk); q
    else TicksMul(n, clk); q
  }

  /** Rust's `/` on signed integers, which truncates toward zero. */
  function TruncDiv(a: int, b: int): (r: int)
    requires b > 0
    ensures a >= 0 ==> r >= 0 && r * b <= a < r * b + b
    ensures a < 0 ==> r <= 0 && r * b - b < a <= r * b
  {
    if a >= 0 then a / b else -((-a) / b)
  }

  /** `Period::new`: the duration is the number of whole clock periods from start to end, rounded toward zero. */
  function PeriodNew(start: int, end: int, clk: int): (p: Period)
    requires clk > 0
    ensures p.start == start && p.end == end
    ensures end >= start ==> p.duration * clk <= end - start < p.duration * clk + clk
    ensures end < start ==> p.duration * clk - clk < end - start <= p.duration * clk
  {
    Period(start, end, TruncDiv(end - start, clk))
  }

  /**
   * `Period::new` and `Period::with_duration` count differently: rebuilding a period of `d` cycles
   * from its start and end gives `d - 1`, the number of clock periods between them.
   */
  lemma PeriodNewOfSpan(p: Period, clk: int)
    requires clk > 0 && Spans(p, clk)
    ensures PeriodNew(p.start, p.end, clk).duration == p.duration - 1
  {
    TicksMul(p.duration - 1, clk);
    var q := PeriodNew(p.start, p.end, clk).duration;
    var d := p.duration - 1;
    assert q * clk <= d * clk < q * clk + clk;
    if q < d {
      assert (q + 1) * clk <= d * clk by { MulMono(q + 1, d, clk); }
    } else if q > d {
      assert (d + 1) * clk <= q * clk by { MulMono(d + 1, q, clk); }
    }
  }

  lemma MulMono(a: int, b: int, c: int)
    requires a <= b && c >= 0
    ensures a * c <= b * c
  {
    assert b * c - a * c == (b - a) * c;
  }

  /** What the bus is in the middle of; `Nothing` is Rust's `None`, before the first cycle. */
  datatype CurrentlyCalculating = Nothing | Burst | Delay | Pause(cycles: int)

  /** The lists and the state that `add_cycle` updates. */
  datatype Machine = Machine(bursts: seq<Period>, delays: seq<Period>, current: CurrentlyCalculating)

  function Last(ps: seq<Period>): Period
    requires |ps| > 0
  {
    ps[|ps| - 1]
  }

  /** `last_mut().add_n_cycles(n)`. */
  function GrowLast(ps: seq<Period>, n: int, clk: int): (r: seq<Period>)
    requires |ps| > 0
    ensures |r| == |ps| && r[..|ps| - 1] == ps[..|ps| - 1] && Last(r) == AddNCycles(Last(ps), n, clk)
  {
    ps[..|ps| - 1] + [AddNCycles(Last(ps), n, clk)]
  }

  /** The lists the state relies on are there (the `expect("Should have at least one")` calls). */
  predicate Shaped(m: Machine)
  {
    (m.current.Burst? || m.current.Pause? ==> |m.bursts| > 0) &&
    (m.current.Delay? ==> |m.delays| > 0)
  }

  /** `add_busy_cycle`, on the lists and the state. */
  function BusyStep(m: Machine, clk: int): (r: Machine)
    requires Shaped(m)
    ensures r.current == Burst && r.delays == m.delays
  {
    match m.current
    case Nothing => Machine(m.bursts + [WithDuration(0, 1, clk)], m.delays, Burst)
    case Burst => Machine(GrowLast(m.bursts, 1, clk), m.delays, Burst)
    case Delay => Machine(m.bursts + [WithDuration(Last(m.delays).end + clk, 1, clk)], m.delays, Burst)
    case Pause(d) => Machine(GrowLast(m.bursts, d + 1, clk), m.delays, Burst)
  }

  /** `add_wasted_cycle`, on the lists and the state. */
  function WastedStep(m: Machine, maxBurstDelay: int, clk: int): (r: Machine)
    requires Shaped(m)
    ensures r.bursts == m.bursts && !r.current.Burst?
  {
    match m.current
    case Nothing => Machine(m.bursts, m.delays + [WithDuration(0, 1, clk)], Delay)
    case Burst =>
      if maxBurstDelay == 0 then Machine(m.bursts, m.delays + [WithDuration(Last(m.bursts).end + clk, 1, clk)], Delay)
      else Machine(m.bursts, m.delays, Pause(1))
    case Delay => Machine(m.bursts, GrowLast(m.delays, 1, clk), Delay)
    case Pause(d) =>
      if d + 1 > maxBurstDelay then Machine(m.bursts, m.delays + [WithDuration(Last(m.bursts).end + clk, d + 1, clk)], Delay)
      else Machine(m.bursts, m.delays, Pause(d + 1))
  }

  function Step(m: Machine, t: CycleType, maxBurstDelay: int, clk: int): Machine
    requires Shaped(m)
  {
    if t == Busy then BusyStep(m, clk) else WastedStep(m, maxBurstDelay, clk)
  }

  /** The summed durations of a list of periods. */
  function TotalDuration(ps: seq<Period>): int
  {
    if |ps| == 0 then 0 else TotalDuration(ps[..|ps| - 1]) + Last(ps).duration
  }

  /** The cycles held in a pending pause. */
  function Pending(c: CurrentlyCalculating): int
  {
    if c.Pause? then c.cycles else 0
  }

  /** Every period is at least one cycle long and spans its cycles. */
  ghost predicate WellFormed(ps: seq<Period>, clk: int)
  {
    forall k :: 0 <= k < |ps| ==> Spans(ps[k], clk)
  }

  /** Where the current period, with its pending pause, ends. */
  function Frontier(m: Machine, clk: int): int
    requires Shaped(m)
  {
    match m.current
    case Nothing => 0
    case Delay => Last(m.delays).end
    case Burst => Last(m.bursts).end
    case Pause(d) => Last(m.bursts).end + (if d >= 0 then Ticks(d, clk) else 0)
  }

  /**
   * What holds after `n` cycles: every cycle is in exactly one burst, one delay or the pending
   * pause; a pause holds between 1 and `max_burst_delay` cycles (1 when that is negative) and is
   * never entered when it is 0; and the current period, with its pause, reaches the start of
   * cycle `n - 1`, counting from time 0 in steps of the clock period.
   */
  ghost predicate Sound(m: Machine, maxBurstDelay: int, clk: int, n: nat)
  {
    Shaped(m) && WellFormed(m.bursts, clk) && WellFormed(m.delays, clk) &&
    TotalDuration(m.bursts) + TotalDuration(m.delays) + Pending(m.current) == n &&
    (m.current.Pause? ==> maxBurstDelay != 0 && 1 <= m.current.cycles && (m.current.cycles == 1 || m.current.cycles <= maxBurstDelay)) &&
    (m.current.Nothing? <==> n == 0) &&
    (m.current.Nothing? ==> m.bursts == [] && m.delays == []) &&
    (n > 0 ==> Frontier(m, clk) == Ticks(n - 1, clk))
  }

  lemma TotalDurationSnoc(ps: seq<Period>, p: Period)
    ensures TotalDuration(ps + [p]) == TotalDuration(ps) + p.duration
  {
    assert (ps + [p])[..|ps|] == ps;
  }

  lemma TotalDurationGrow(ps: seq<Period>, n: int, clk: int)
    requires |ps| > 0
    ensures TotalDuration(GrowLast(ps, n, clk)) == TotalDuration(ps) + n
  {
    assert GrowLast(ps, n, clk)[..|ps| - 1] == ps[..|ps| - 1];
  }

  lemma WellFormedSnoc(ps: seq<Period>, p: Period, clk: int)
    requires WellFormed(ps, clk) && Spans(p, clk)
    ensures WellFormed(ps + [p], clk)
  {
    assert forall k :: 0 <= k < |ps| ==> (ps + [p])[k] == ps[k];
  }

  lemma WellFormedGrow(ps: seq<Period>, n: int, clk: int)
    requires |ps| > 0 && WellFormed(ps, clk) && n >= 0
    ensures WellFormed(GrowLast(ps, n, clk), clk)
  {
    var r := GrowLast(ps, n, clk);
    assert forall k :: 0 <= k < |ps| - 1 ==> r[k] == ps[k];
  }

  lemma TotalDurationPositive(ps: seq<Period>, clk: int)
    requires WellFormed(ps, clk)
    ensures TotalDuration(ps) >= |ps|
  {
    if |ps| > 0 {
      assert WellFormed(ps[..|ps| - 1], clk) by {
        assert forall k :: 0 <= k < |ps| - 1 ==> ps[..|ps| - 1][k] == ps[k];
      }
      TotalDurationPositive(ps[..|ps| - 1], clk);
    }
  }

  /** `add_busy_cycle` keeps the cycle accounting, the pause bounds and the frontier. */
  lemma BusyStepSound(m: Machine, maxBurstDelay: int, clk: int, n: nat)
    requires Sound(m, maxBurstDelay, clk, n)
    ensures Sound(BusyStep(m, clk), maxBurstDelay, clk, n + 1)
  {
    match m.current {
      case Nothing => OpenFirst(maxBurstDelay, clk, true);
      case Burst => GrowBurst(m, maxBurstDelay, clk, n, 0);
      case Delay => OpenAfter(m, maxBurstDelay, clk, n, true);
      case Pause(d) => GrowBurst(m, maxBurstDelay, clk, n, d);
    }
  }

  /** `add_wasted_cycle` keeps the cycle accounting, the pause bounds and the frontier. */
  lemma WastedStepSound(m: Machine, maxBurstDelay: int, clk: int, n: nat)
    requires Sound(m, maxBurstDelay, clk, n)
    ensures Sound(WastedStep(m, maxBurstDelay, clk), maxBurstDelay, clk, n + 1)
  {
    match m.current {
      case Nothing => OpenFirst(maxBurstDelay, clk, false);
      case Burst =>
        if maxBurstDelay == 0 {
          OpenAfter(m, maxBurstDelay, clk, n, false);
        } else {
          HoldPause(m, maxBurstDelay, clk, n);
        }
      case Delay => GrowDelay(m, maxBurstDelay, clk, n);
      case Pause(d) =>
        if d + 1 > maxBurstDelay {
          OpenAfter(m, maxBurstDelay, clk, n, false);
        } else {
          HoldPause(m, maxBurstDelay, clk, n);
        }
    }
  }

  /** The first cycle opens a burst or a delay of one cycle at time 0. */
  lemma OpenFirst(maxBurstDelay: int, clk: int, busy: bool)
    ensures busy ==> Sound(BusyStep(Machine([], [], Nothing), clk), maxBurstDelay, clk, 1)
    ensures !busy ==> Sound(WastedStep(Machine([], [], Nothing), maxBurstDelay, clk), maxBurstDelay, clk, 1)
  {
    var p := Period(0, 0, 1);
    assert p == WithDuration(0, 1, clk);
    OneSpan(p, clk);
    if busy {
      assert BusyStep(Machine([], [], Nothing), clk) == Machine([p], [], Burst);
    } else {
      assert WastedStep(Machine([], [], Nothing), maxBurstDelay, clk) == Machine([], [p], Delay);
    }
  }

  lemma OneSpan(p: Period, clk: int)
    requires p == Period(0, 0, 1)
    ensures WellFormed([p], clk) && TotalDuration([p]) == 1 && Ticks(0, clk) == 0
  {
    assert [p][..0] == [];
  }

  /** A busy cycle after a burst or a pause of `d` cycles makes the burst `d + 1` cycles longer. */
  lemma GrowBurst(m: Machine, maxBurstDelay: int, clk: int, n: nat, d: nat)
    requires Sound(m, maxBurstDelay, clk, n) && ((m.current == Burst && d == 0) || m.current == Pause(d))
    ensures Sound(BusyStep(m, clk), maxBurstDelay, clk, n + 1)
  {
    var r := Machine(GrowLast(m.bursts, d + 1, clk), m.delays, Burst);
    assert r == BusyStep(m, clk);
    TotalDurationGrow(m.bursts, d + 1, clk);
    WellFormedGrow(m.bursts, d + 1, clk);
    TicksAdd(d, 1, clk);
    assert Ticks(1, clk) == clk;
    assert Frontier(r, clk) == Frontier(m, clk) + clk;
    assert Ticks(n, clk) == Ticks(n - 1, clk) + clk;
  }

  /** A wasted cycle after a delay makes the delay one cycle longer. */
  lemma GrowDelay(m: Machine, maxBurstDelay: int, clk: int, n: nat)
    requires Sound(m, maxBurstDelay, clk, n) && m.current == Delay
    ensures Sound(WastedStep(m, maxBurstDelay, clk), maxBurstDelay, clk, n + 1)
  {
    var r := Machine(m.bursts, GrowLast(m.delays, 1, clk), Delay);
    assert r == WastedStep(m, maxBurstDelay, clk);
    TotalDurationGrow(m.delays, 1, clk);
    WellFormedGrow(m.delays, 1, clk);
    assert Ticks(1, clk) == clk;
    assert Frontier(r, clk) == Frontier(m, clk) + clk;
    assert Ticks(n, clk) == Ticks(n - 1, clk) + clk;
  }

  /** A wasted cycle within `max_burst_delay` of a burst is held in the pause. */
  lemma HoldPause(m: Machine, maxBurstDelay: int, clk: int, n: nat)
    requires Sound(m, maxBurstDelay, clk, n)
    requires (m.current == Burst && maxBurstDelay != 0) || (m.current.Pause? && m.current.cycles + 1 <= maxBurstDelay)
    ensures Sound(WastedStep(m, maxBurstDelay, clk), maxBurstDelay, clk, n + 1)
  {
    var d := Pending(m.current);
    var r := Machine(m.bursts, m.delays, Pause(d + 1));
    assert r == WastedStep(m, maxBurstDelay, clk);
    TicksAdd(d, 1, clk);
    assert Ticks(1, clk) == clk;
    assert Frontier(r, clk) == Frontier(m, clk) + clk;
    assert Ticks(n, clk) == Ticks(n - 1, clk) + clk;
  }

  /**
   * A busy cycle after a delay, or a wasted cycle that ends a burst (at once, or when the pause
   * outgrows `max_burst_delay`), opens a new period one clock after the current one; a delay
   * opened from a pause takes over the pause's cycles.
   */
  lemma OpenAfter(m: Machine, maxBurstDelay: int, clk: int, n: nat, busy: bool)
    requires Sound(m, maxBurstDelay, clk, n)
    requires busy ==> m.current == Delay
    requires !busy ==> (m.current == Burst && maxBurstDelay == 0) || (m.current.Pause? && m.current.cycles + 1 > maxBurstDelay)
    ensures busy ==> Sound(BusyStep(m, clk), maxBurstDelay, clk, n + 1)
    ensures !busy ==> Sound(WastedStep(m, maxBurstDelay, clk), maxBurstDelay, clk, n + 1)
  {
    var d := Pending(m.current);
    var ends := if busy then Last(m.delays).end else Last(m.bursts).end;
    var p := WithDuration(ends + clk, d + 1, clk);
    TicksAdd(1, d, clk);
    assert Ticks(1, clk) == clk;
    assert p.end == Frontier(m, clk) + clk;
    assert Ticks(n, clk) == Ticks(n - 1, clk) + clk;
    if busy {
      var r := Machine(m.bursts + [p], m.delays, Burst);
      assert r == BusyStep(m, clk);
      TotalDurationSnoc(m.bursts, p);
      WellFormedSnoc(m.bursts, p, clk);
      assert Frontier(r, clk) == p.end;
    } else {
      var r := Machine(m.bursts, m.delays + [p], Delay);
      assert r == WastedStep(m, maxBurstDelay, clk);
      TotalDurationSnoc(m.delays, p);
      WellFormedSnoc(m.delays, p, clk);
      assert Frontier(r, clk) == p.end;
    }
  }

  /** The six cycle counters. */
  datatype Counters = Counters(busy: int, backpressure: int, noData: int, noTransaction: int, free: int, reset: int)

  function Sum(c: Counters): int
  {
    c.busy + c.backpressure + c.noData + c.noTransaction + c.free + c.reset
  }

  /** The counter a cycle of type `t` goes to; an unknown cycle counts as no transaction. */
  function Tally(c: Counters, t: CycleType): (r: Counters)
    ensures Sum(r) == Sum(c) + 1
    ensures t == Unknown ==> r == c.(noTransaction := c.noTransaction + 1)
  {
    match t
    case Busy => c.(busy := c.busy + 1)
    case Free => c.(free := c.free + 1)
    case NoTransaction | Unknown => c.(noTransaction := c.noTransaction + 1)
    case Backpressure => c.(backpressure := c.backpressure + 1)
    case NoData => c.(noData := c.noData + 1)
    case Reset => c.(reset := c.reset + 1)
  }

  /** `SingleChannelBusUsage`: the cycle counters and the burst and delay lists of one channel. */
  class SingleChannelBusUsage {
    const busName: string
    var busy: int
    var backpressure: int
    var noData: int
    var noTransaction: int
    var free: int
    var reset: int
    var transactionDelays: seq<Period>
    var burstLengths: seq<Period>
    var current: CurrentlyCalculating
    const maxBurstDelay: int
    const clkPeriod: int
    /** The number of `add_cycle` calls so far. */
    ghost var cycles: nat

    ghost function Counts(): Counters
      reads this
    {
      Counters(busy, backpressure, noData, noTransaction, free, reset)
    }

    ghost function State(): Machine
      reads this
    {
      Machine(burstLengths, transactionDelays, current)
    }

    /** Every cycle so far is counted once, and the lists and the state are sound. */
    ghost predicate Valid()
      reads this
    {
      busy >= 0 && backpressure >= 0 && noData >= 0 && noTransaction >= 0 && free >= 0 && reset >= 0 &&
      busy + backpressure + noData + noTransaction + free + reset == cycles &&
      Sound(State(), maxBurstDelay, clkPeriod, cycles)
    }

    /** `SingleChannelBusUsage::new`: all counters 0, no periods, before the first cycle. */
    constructor (name: string, maxBurstDelay: int, clkToTime: int)
      ensures Valid() && cycles == 0
      ensures busName == name && this.maxBurstDelay == maxBurstDelay && clkPeriod == clkToTime
      ensures Counts() == Counters(0, 0, 0, 0, 0, 0) && State() == Machine([], [], Nothing)
    {
      busName := name;
      busy, backpressure, noData, noTransaction, free, reset := 0, 0, 0, 0, 0, 0;
      transactionDelays, burstLengths := [], [];
      current := Nothing;
      this.maxBurstDelay := maxBurstDelay;
      clkPeriod := clkToTime;
      cycles := 0;
      new;
      assert State() == Machine([], [], Nothing);
    }

    /** `add_cycle`: one more cycle of type `t`. */
    method AddCycle(t: CycleType)
      requires Valid()
      modifies this
      ensures Valid() && cycles == old(cycles) + 1
      ensures Counts() == Tally(old(Counts()), t)
      ensures State() == Step(old(State()), t, maxBurstDelay, clkPeriod)
    {
      if t == Busy {
        AddBusyCycle();
      } else {
        AddWastedCycle(t);
      }
    }

    /** `add_busy_cycle`. */
    method AddBusyCycle()
      requires Valid()
      modifies this
      ensures Valid() && cycles == old(cycles) + 1
      ensures Counts() == Tally(old(Counts()), Busy)
      ensures State() == BusyStep(old(State()), clkPeriod)
    {
      BusyStepSound(State(), maxBurstDelay, clkPeriod, cycles);
      ExtendBusy();
      busy := busy + 1;
      cycles := cycles + 1;
    }

    /** The burst part of `add_busy_cycle`: open a burst or make the current one longer. */
    method ExtendBusy()
      requires Shaped(State())
      modifies this`burstLengths, this`current
      ensures State() == BusyStep(old(State()), clkPeriod)
    {
      match current {
        case Nothing =>
          burstLengths := burstLengths + [WithDuration(0, 1, clkPeriod)];
          current := Burst;
        case Burst =>
          burstLengths := GrowLast(burstLengths, 1, clkPeriod);
        case Delay =>
          var delay := Last(transactionDelays);
          burstLengths := burstLengths + [WithDuration(delay.end + clkPeriod, 1, clkPeriod)];
          current := Burst;
        case Pause(duration) =>
          burstLengths := GrowLast(burstLengths, duration + 1, clkPeriod);
          current := Burst;
      }
    }

    /** `add_wasted_cycle`, for any cycle type but `Busy`. */
    method AddWastedCycle(t: CycleType)
      requires Valid() && t != Busy
      modifies this
      ensures Valid() && cycles == old(cycles) + 1
      ensures Counts() == Tally(old(Counts()), t)
      ensures State() == WastedStep(old(State()), maxBurstDelay, clkPeriod)
    {
      ghost var m0, n0 := State(), cycles;
      WastedStepSound(m0, maxBurstDelay, clkPeriod, n0);
      CountWasted(t);
      ExtendWasted();
      cycles := n0 + 1;
      assert Sound(State(), maxBurstDelay, clkPeriod, cycles);
    }

    /** The delay part of `add_wasted_cycle`: open or grow a delay, or hold the cycle in a pause. */
    method ExtendWasted()
      requires Shaped(State())
      modifies this`transactionDelays, this`current
      ensures State() == WastedStep(old(State()), maxBurstDelay, clkPeriod)
    {
      match current {
        case Nothing =>
          transactionDelays := transactionDelays + [WithDuration(0, 1, clkPeriod)];
          current := Delay;
        case Burst =>
          if maxBurstDelay == 0 {
            var transactionEnd := Last(burstLengths).end;
            transactionDelays := transactionDelays + [WithDuration(transactionEnd + clkPeriod, 1, clkPeriod)];
            current := Delay;
          } else {
            current := Pause(1);
          }
        case Delay =>
          transactionDelays := GrowLast(transactionDelays, 1, clkPeriod);
        case Pause(duration) =>
          if duration + 1 > maxBurstDelay {
            var transactionEnd := Last(burstLengths).end;
            transactionDelays := transactionDelays + [WithDuration(transactionEnd + clkPeriod, duration + 1, clkPeriod)];
            current := Delay;
          } else {
            current := Pause(duration + 1);
          }
      }
    }

    /** The counter part of `add_wasted_cycle`. */
    method CountWasted(t: CycleType)
      requires t != Busy
      modifies this`free, this`noTransaction, this`backpressure, this`noData, this`reset
      ensures Counts() == Tally(old(Counts()), t)
    {
      match t {
        case Free => free := free + 1;
        case NoTransaction => noTransaction := noTransaction + 1;
        case Backpressure => backpressure := backpressure + 1;
        case NoData => noData := noData + 1;
        case Reset => reset := reset + 1;
        case Unknown => noTransaction := noTransaction + 1;
      }
    }
  }
}
