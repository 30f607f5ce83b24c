// The per-cycle classifiers (`interpret_cycle`) of every bus kind: the current ones of
// src/analyze/bus/ that read single-bit logic levels, the earlier ones of src/bus/ that parse bit
// strings as decimal numbers, and the two Python plugins with the host side that converts their
// answers.
module Classifiers {
  import opened Wrappers
  import opened Cycles
  import opened Bus
  import opened Text

  /** The value is a two-state single bit at level 1 (what `is_value_of_type(v, V1)` accepts). */
  predicate High(v: SignalValue)
  {
    v.Binary? && GetValue(v) == Some(V1)
  }

  /** The level of a two-state single-bit value, as the text the waveform reader prints for it. */
  lemma BinaryLevel(v: SignalValue)
    requires v.Binary? && |v.bits| == 1
    ensures GetValue(v) == Some(V1) <==> v.bits == "1"
    ensures GetValue(v) == Some(V0) <==> v.bits == "0"
  {
    assert v.bits == [v.bits[0]];
  }

  // ---------------------------------------------------------------- current classifiers

  /**
   * AXI ready/valid: busy when both are 1, free when neither is, no data when only ready is, and
   * backpressure when only valid is. X and Z count as "not 1"; only a value that
   * `is_value_of_type` cannot judge panics.
   */
  function AxiCycle(ready: SignalValue, valid: SignalValue): (r: Outcome<CycleType>)
    ensures r.Panics? <==> IsValueOfType(ready, V1).Panics? || IsValueOfType(valid, V1).Panics?
    ensures r.Returns? ==> r.value in {Busy, Free, NoData, Backpressure}
    ensures r.Returns? ==> (r.value == Busy <==> High(ready) && High(valid))
    ensures r.Returns? ==> (r.value == Free <==> !High(ready) && !High(valid))
    ensures r.Returns? ==> (r.value == NoData <==> High(ready) && !High(valid))
    ensures r.Returns? ==> (r.value == Backpressure <==> !High(ready) && High(valid))
  {
    match (IsValueOfType(ready, V1), IsValueOfType(valid, V1))
    case (Panics, _) => Panics
    case (_, Panics) => Panics
    case (Returns(true), Returns(true)) => Returns(Busy)
    case (Returns(false), Returns(false)) => Returns(Free)
    case (Returns(true), Returns(false)) => Returns(NoData)
    case (Returns(false), Returns(true)) => Returns(Backpressure)
  }

  /** The AXI classifier never panics on the single-bit values a one-bit handshake signal carries. */
  lemma AxiSingleBitTotal(ready: SignalValue, valid: SignalValue)
    requires !ready.NineValue? && !valid.NineValue?
    requires ready.FourValue? ==> |ready.fbits| == 1
    requires valid.FourValue? ==> |valid.fbits| == 1
    ensures AxiCycle(ready, valid).Returns?
  {
  }

  /**
   * APB: no select is free whatever enable and ready are; the setup phase and a completed access
   * are busy; an access phase waiting for ready is backpressure. Every signal must be a single-bit
   * level, and an X or Z where it decides the outcome gives unknown.
   */
  function ApbCycle(psel: SignalValue, penable: SignalValue, pready: SignalValue): (r: CycleType)
    ensures r in {Free, Busy, Backpressure, Unknown}
    ensures r == Free <==>
              GetValue(psel) == Some(V0) && GetValue(penable).Some? && GetValue(pready).Some?
    ensures r == Backpressure <==>
              GetValue(psel) == Some(V1) && GetValue(penable) == Some(V1) && GetValue(pready) == Some(V0)
    ensures r == Busy <==>
              GetValue(psel) == Some(V1) && GetValue(pready).Some? &&
              (GetValue(penable) == Some(V0) || (GetValue(penable) == Some(V1) && GetValue(pready) == Some(V1)))
  {
    match (GetValue(psel), GetValue(penable), GetValue(pready))
    case (Some(V0), Some(_), Some(_)) => Free
    case (Some(V1), Some(V0), Some(_)) => Busy
    case (Some(V1), Some(V1), Some(V0)) => Backpressure
    case (Some(V1), Some(V1), Some(V1)) => Busy
    case _ => Unknown
  }

  /** With two-state single-bit signals the APB classifier always decides. */
  lemma ApbTwoStateDecides(psel: SignalValue, penable: SignalValue, pready: SignalValue)
    requires psel.Binary? && |psel.bits| == 1
    requires penable.Binary? && |penable.bits| == 1
    requires pready.Binary? && |pready.bits| == 1
    ensures ApbCycle(psel, penable, pready) != Unknown
  {
  }

  /** An undriven select (X or Z) is unknown whatever the other two signals are. */
  lemma ApbUndrivenSelect(psel: SignalValue, penable: SignalValue, pready: SignalValue)
    requires psel.FourValue? && |psel.fbits| == 1
    ensures ApbCycle(psel, penable, pready) == Unknown
  {
  }

  /** Whether a credit/valid sample returns a credit: both signals are single-bit levels and credit is 1. */
  function Grant(credit: SignalValue, valid: SignalValue): (g: nat)
    ensures g <= 1
    ensures g == 1 <==> GetValue(credit) == Some(V1) && GetValue(valid).Some?
  {
    if GetValue(credit).Some? && GetValue(valid).Some? && GetValue(credit) == Some(V1) then 1 else 0
  }

  /**
   * One credit/valid cycle on a counter holding `credits` credits: a returned credit is counted
   * first; a valid transfer then takes one credit if there is one (and is still busy, with a
   * warning, if there is none). The cycle type comes first, the new counter second.
   */
  function CreditStep(credits: nat, credit: SignalValue, valid: SignalValue): (r: (CycleType, nat))
    ensures r.0 in {Busy, Free, NoTransaction, Unknown}
    ensures GetValue(credit).None? || GetValue(valid).None? ==> r == (Unknown, credits)
    ensures r.0 == Busy <==> GetValue(credit).Some? && GetValue(valid) == Some(V1)
    ensures r.0 == Free <==> GetValue(credit).Some? && GetValue(valid) == Some(V0) && credits + Grant(credit, valid) >= 1
    ensures r.0 == NoTransaction <==>
              GetValue(credit).Some? && GetValue(valid) == Some(V0) && credits + Grant(credit, valid) == 0
    ensures r.1 + (if Spends(credits, credit, valid) then 1 else 0) == credits + Grant(credit, valid)
  {
    match (GetValue(credit), GetValue(valid))
    case (Some(c), Some(v)) =>
      var available := credits + Grant(credit, valid);
      if available >= 1 && v == V1 then (Busy, available - 1)
      else if available >= 1 && v == V0 then (Free, available)
      else if v == V1 then (Busy, available)
      else if v == V0 then (NoTransaction, available)
      else (Unknown, available)
    case _ => (Unknown, credits)
  }

  /** The cycle is a valid transfer that consumes an available credit. */
  predicate Spends(credits: nat, credit: SignalValue, valid: SignalValue)
  {
    GetValue(credit).Some? && GetValue(valid) == Some(V1) && credits + Grant(credit, valid) >= 1
  }

  /** The counter after a run of (credit, valid) samples from 0. */
  function Credits(samples: seq<(SignalValue, SignalValue)>): nat
  {
    if |samples| == 0 then 0
    else
      var last := samples[|samples| - 1];
      CreditStep(Credits(samples[..|samples| - 1]), last.0, last.1).1
  }

  /** How many credits the run returned. */
  function Granted(samples: seq<(SignalValue, SignalValue)>): nat
  {
    if |samples| == 0 then 0
    else
      var last := samples[|samples| - 1];
      Granted(samples[..|samples| - 1]) + Grant(last.0, last.1)
  }

  /** How many transfers of the run consumed a credit. */
  function Spent(samples: seq<(SignalValue, SignalValue)>): nat
  {
    if |samples| == 0 then 0
    else
      var init := samples[..|samples| - 1];
      var last := samples[|samples| - 1];
      Spent(init) + (if Spends(Credits(init), last.0, last.1) then 1 else 0)
  }

  /** The counter holds exactly the credits returned and not yet consumed, so it never underflows. */
  lemma {:induction false} CreditsConserved(samples: seq<(SignalValue, SignalValue)>)
    ensures Credits(samples) + Spent(samples) == Granted(samples)
    decreases |samples|
  {
    if |samples| > 0 {
      CreditsConserved(samples[..|samples| - 1]);
    }
  }

  /** `CreditValidBus` of the current analyzer: its credit counter lives in the bus description. */
  class CreditValidBus {
    const credit: SignalPath
    const valid: SignalPath
    var credits: nat

    /** `CreditValidBus::new`: no credits yet. */
    constructor (credit: SignalPath, valid: SignalPath)
      ensures this.credit == credit && this.valid == valid && credits == 0
    {
      this.credit := credit;
      this.valid := valid;
      credits := 0;
    }

    /** `interpret_cycle`: classifies one sampled cycle and updates the credit counter. */
    method InterpretCycle(creditValue: SignalValue, validValue: SignalValue) returns (t: CycleType)
      modifies this`credits
      ensures (t, credits) == CreditStep(old(credits), creditValue, validValue)
    {
      var cv := GetValue(creditValue);
      var vv := GetValue(validValue);
      if cv.Some? && vv.Some? {
        if cv.value == V1 {
          credits := credits + 1;
        }
        if credits >= 1 && vv.value == V1 {
          credits := credits - 1;
          t := Busy;
        } else if credits >= 1 && vv.value == V0 {
          t := Free;
        } else if vv.value == V1 {
          t := Busy;
        } else if vv.value == V0 {
          t := NoTransaction;
        } else {
          t := Unknown;
        }
      } else {
        t := Unknown;
      }
    }
  }

  // ---------------------------------------------------------------- earlier classifiers

  const U32_LIMIT: nat := 0x1_0000_0000

  predicate AllDigits(s: string)
  {
    forall i :: 0 <= i < |s| ==> IsDigit(s[i])
  }

  /**
   * Rust's `str::parse::<u32>()`: optional `+`, then at least one decimal digit, and a value
   * below 2^32.
   */
  function ParseU32(s: string): (r: Option<nat>)
    ensures r.Some? ==> r.value < U32_LIMIT
    ensures |s| >= 1 && AllDigits(s) ==> (r.Some? <==> DigitsValue(s) < U32_LIMIT)
    ensures r.Some? && AllDigits(s) ==> r.value == DigitsValue(s)
    ensures (exists i :: 0 < i < |s| && !IsDigit(s[i])) ==> r.None?
  {
    var digits := if |s| >= 2 && s[0] == '+' then s[1..] else s;
    if |digits| >= 1 && AllDigits(digits) && DigitsValue(digits) < U32_LIMIT then
      Some(DigitsValue(digits))
    else None
  }

  /** A single two-state bit parses as its own value. */
  lemma ParseBit()
    ensures ParseU32("0") == Some(0) && ParseU32("1") == Some(1)
  {
    assert DigitsValue("0") == 10 * DigitsValue("") + DigitOf('0');
    assert DigitsValue("1") == 10 * DigitsValue("") + DigitOf('1');
  }

  /** `to_bit_string().unwrap().parse::<u32>()`: no bit string panics; a failed parse is `None`. */
  function ParsedBits(v: SignalValue): (r: Outcome<Option<nat>>)
    ensures r.Panics? <==> ToBitString(v).None?
    ensures r.Returns? ==> r.value == ParseU32(ToBitString(v).value)
  {
    match ToBitString(v)
    case None => Panics
    case Some(b) => Returns(ParseU32(b))
  }

  /**
   * The earlier AXI classifier: the decimal readings (1,1), (0,0), (1,0) and (0,1) are busy, free,
   * no data and backpressure; any other pair of numbers panics, and an unreadable value (X or Z)
   * is counted as no transaction. Valid is only read once ready has parsed.
   */
  function LegacyAxiCycle(ready: SignalValue, valid: SignalValue): (r: Outcome<CycleType>)
    ensures r.Returns? ==> r.value in {Busy, Free, NoData, Backpressure, NoTransaction}
    ensures ParsedBits(ready) == Returns(None) ==> r == Returns(NoTransaction)
  {
    match ParsedBits(ready)
    case Panics => Panics
    case Returns(None) => Returns(NoTransaction)
    case Returns(Some(rd)) =>
      match ParsedBits(valid)
      case Panics => Panics
      case Returns(None) => Returns(NoTransaction)
      case Returns(Some(vd)) =>
        if rd == 1 && vd == 1 then Returns(Busy)
        else if rd == 0 && vd == 0 then Returns(Free)
        else if rd == 1 && vd == 0 then Returns(NoData)
        else if rd == 0 && vd == 1 then Returns(Backpressure)
        else Panics
  }

  /** On two-state single bits the earlier and the current AXI classifiers agree. */
  lemma AxiVersionsAgree(ready: SignalValue, valid: SignalValue)
    requires ready.Binary? && |ready.bits| == 1 && valid.Binary? && |valid.bits| == 1
    ensures LegacyAxiCycle(ready, valid) == AxiCycle(ready, valid)
  {
    BinaryLevel(ready);
    BinaryLevel(valid);
    ParseBit();
    assert ready.bits == "0" || ready.bits == "1";
    assert valid.bits == "0" || valid.bits == "1";
  }

  /** A wider bus value that reads as a number other than 0 or 1 makes the earlier AXI classifier panic. */
  lemma LegacyAxiRejectsWideValue()
    ensures LegacyAxiCycle(Binary("10"), Binary("1")) == Panics
  {
    assert DigitsValue("10") == 10 * DigitsValue("1") + DigitOf('0');
    assert "10"[..1] == "1";
    ParseBit();
  }

  /**
   * The earlier credit/valid classifier, which keeps no counter: any positive credit reading with
   * valid 1 or 0 is busy or free; credit 0 is busy (with a warning) or no transaction; a valid
   * reading other than 0 or 1 panics; an unreadable value is no transaction.
   */
  function LegacyCreditValidCycle(credit: SignalValue, valid: SignalValue): (r: Outcome<CycleType>)
    ensures r.Returns? ==> r.value in {Busy, Free, NoTransaction}
    ensures ParsedBits(credit) == Returns(None) ==> r == Returns(NoTransaction)
    ensures r == Returns(Free) <==>
              ParsedBits(credit).Returns? && ParsedBits(credit).value.Some? && ParsedBits(credit).value.value >= 1 &&
              ParsedBits(valid) == Returns(Some(0))
  {
    match ParsedBits(credit)
    case Panics => Panics
    case Returns(None) => Returns(NoTransaction)
    case Returns(Some(cd)) =>
      match ParsedBits(valid)
      case Panics => Panics
      case Returns(None) => Returns(NoTransaction)
      case Returns(Some(vd)) =>
        if vd == 1 then Returns(Busy)
        else if vd == 0 && cd >= 1 then Returns(Free)
        else if vd == 0 then Returns(NoTransaction)
        else Panics
  }

  /**
   * A valid transfer is busy in both credit/valid classifiers, whether or not a credit is
   * available; the earlier one classifies from this cycle's credit signal alone.
   */
  lemma CreditValidBusyAgrees(credits: nat, credit: SignalValue, valid: SignalValue)
    requires credit.Binary? && |credit.bits| == 1 && valid.Binary? && |valid.bits| == 1
    ensures LegacyCreditValidCycle(credit, valid) == Returns(Busy) <==> CreditStep(credits, credit, valid).0 == Busy
  {
    BinaryLevel(credit);
    BinaryLevel(valid);
    ParseBit();
    assert credit.bits == "0" || credit.bits == "1";
    assert valid.bits == "0" || valid.bits == "1";
  }

  /** The earlier classifier reads credit 0 with valid 0 as idle even when earlier credits are outstanding. */
  lemma LegacyCreditIgnoresOutstanding()
    ensures LegacyCreditValidCycle(Binary("0"), Binary("0")) == Returns(NoTransaction)
    ensures CreditStep(1, Binary("0"), Binary("0")).0 == Free
  {
    ParseBit();
    BinaryLevel(Binary("0"));
  }

  /** The AHB transfer types of `HTRANS` (AMBA AHB, section 3.2 "Transfer types"). */
  const IDLE := "00"
  const BUSY := "01"
  const NONSEQ := "10"
  const SEQ := "11"

  /**
   * The earlier AHB classifier: with `hready` 1, a sequential or non-sequential transfer is busy,
   * IDLE is free and BUSY is no data; with `hready` 0 the cycle is backpressure whatever `htrans`
   * holds (IDLE and BUSY also warn). Any other `hready` reading, or another `htrans` while ready,
   * panics. A missing `htrans` bit string or an unreadable `hready` is no transaction.
   */
  function LegacyAhbCycle(htrans: SignalValue, hready: SignalValue): (r: Outcome<CycleType>)
    ensures r.Returns? ==> r.value in {Busy, Free, NoData, Backpressure, NoTransaction}
    ensures ToBitString(htrans).None? ==> r == Returns(NoTransaction)
    ensures ToBitString(htrans).Some? && ParsedBits(hready) == Returns(Some(0)) ==> r == Returns(Backpressure)
    ensures ParsedBits(hready) == Returns(Some(1)) ==>
              (r == Returns(Busy) <==> ToBitString(htrans) in {Some(SEQ), Some(NONSEQ)})
    ensures ParsedBits(hready) == Returns(Some(1)) ==>
              (r == Returns(Free) <==> ToBitString(htrans) == Some(IDLE))
    ensures ParsedBits(hready) == Returns(Some(1)) ==>
              (r == Returns(NoData) <==> ToBitString(htrans) == Some(BUSY))
    ensures r == Returns(Backpressure) ==> ParsedBits(hready) == Returns(Some(0))
  {
    match ToBitString(htrans)
    case None => Returns(NoTransaction)
    case Some(ht) =>
      match ParsedBits(hready)
      case Panics => Panics
      case Returns(None) => Returns(NoTransaction)
      case Returns(Some(hr)) =>
        if hr == 1 && (ht == SEQ || ht == NONSEQ) then Returns(Busy)
        else if hr == 1 && ht == IDLE then Returns(Free)
        else if hr == 1 && ht == BUSY then Returns(NoData)
        else if hr == 0 then Returns(Backpressure)
        else Panics
  }

  /** While ready, an `htrans` that is not a two-bit transfer type makes the earlier AHB classifier panic. */
  lemma LegacyAhbUndefinedTransfer()
    ensures LegacyAhbCycle(Binary("1"), Binary("1")) == Panics
  {
    ParseBit();
  }

  // ---------------------------------------------------------------- Python plugins

  /** What a plugin's `interpret_cycle` hands back: a `CycleType` object or a Python integer. */
  datatype PyReturn = PyCycle(t: CycleType) | PyInt(i: int)

  /**
   * `PythonReadyValid.interpret_cycle`: the ready/valid table on the bit strings "1" and "0"; every
   * other pair of strings is unknown.
   */
  function PythonReadyValid(ready: string, valid: string): (r: CycleType)
    ensures r in {Busy, Free, Backpressure, NoData, Unknown}
    ensures r == Unknown <==> !(ready in {"0", "1"} && valid in {"0", "1"})
    ensures r == Busy <==> ready == "1" && valid == "1"
    ensures r == Backpressure <==> ready == "0" && valid == "1"
  {
    if ready == "1" && valid == "1" then Busy
    else if ready == "0" && valid == "0" then Free
    else if ready == "0" && valid == "1" then Backpressure
    else if ready == "1" && valid == "0" then NoData
    else Unknown
  }

  /** On two-state single bits the ready/valid plugin agrees with the built-in AXI classifier. */
  lemma PythonReadyValidIsAxi(ready: SignalValue, valid: SignalValue)
    requires ready.Binary? && |ready.bits| == 1 && valid.Binary? && |valid.bits| == 1
    ensures AxiCycle(ready, valid) == Returns(PythonReadyValid(ready.bits, valid.bits))
  {
    BinaryLevel(ready);
    BinaryLevel(valid);
    assert ready.bits == "0" || ready.bits == "1";
    assert valid.bits == "0" || valid.bits == "1";
  }

  /** `PythonTest.interpret_cycle`: the same table as integer codes, 2 for anything else. */
  function PythonTestCode(ready: string, valid: string): (r: int)
    ensures 0 <= r <= 4
    ensures r == 2 <==> !(ready in {"0", "1"} && valid in {"0", "1"})
  {
    if ready == "1" && valid == "1" then 0
    else if ready == "0" && valid == "0" then 1
    else if ready == "0" && valid == "1" then 3
    else if ready == "1" && valid == "0" then 4
    else 2
  }

  /**
   * The earlier plugin host: the answer must be an integer that fits a `u32` (otherwise the
   * `unwrap` panics); 0 to 4 map to busy, free, no transaction, backpressure and no data, and any
   * larger number panics.
   */
  function LegacyHostCycle(ret: PyReturn): (r: Outcome<CycleType>)
    ensures r.Returns? <==> ret.PyInt? && 0 <= ret.i <= 4
    ensures r.Returns? ==> r.value !in {Reset, Unknown}
  {
    match ret
    case PyCycle(_) => Panics
    case PyInt(i) =>
      if i == 0 then Returns(Busy)
      else if i == 1 then Returns(Free)
      else if i == 2 then Returns(NoTransaction)
      else if i == 3 then Returns(Backpressure)
      else if i == 4 then Returns(NoData)
      else Panics
  }

  /** The current plugin host: a `CycleType` object is taken as is, anything else is reported and unknown. */
  function HostCycle(ret: PyReturn): (r: CycleType)
    ensures ret.PyCycle? ==> r == ret.t
    ensures ret.PyInt? ==> r == Unknown
  {
    match ret
    case PyCycle(t) => t
    case PyInt(_) => Unknown
  }

  /**
   * Through the earlier host, the test plugin never panics and classifies exactly as the
   * ready/valid plugin, with its "anything else" answer counted as no transaction.
   */
  lemma PythonTestThroughHost(ready: string, valid: string)
    ensures LegacyHostCycle(PyInt(PythonTestCode(ready, valid))) ==
            Returns(var t := PythonReadyValid(ready, valid); if t == Unknown then NoTransaction else t)
  {
  }
}
