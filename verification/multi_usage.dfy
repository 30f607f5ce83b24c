// `MultiChannelBusUsage` of libbusperf: the per-transaction latency lists and the response tally
// that the AXI analyzers fill through `add_transaction`.
module MultiUsage {
  import opened CycleUsage

  predicate EndsWith(s: string, suffix: string)
  {
    |suffix| <= |s| && s[|s| - |suffix|..] == suffix
  }

  /**
   * A response counts as correct when its bit string ends in "00" (OKAY) or "01" (EXOKAY), the two
   * successful encodings of section A3.4.4 of the AMBA AXI specification (ARM IHI 0022E).
   */
  predicate IsOk(resp: string)
  {
    EndsWith(resp, "00") || EndsWith(resp, "01")
  }

  /** Only the two low bits decide: correct exactly when the second-lowest bit is 0. */
  lemma IsOkLowBits(resp: string)
    ensures IsOk(resp) <==> |resp| >= 2 && resp[|resp| - 2] == '0' && (resp[|resp| - 1] == '0' || resp[|resp| - 1] == '1')
  {
    if |resp| >= 2 {
      var tail := resp[|resp| - 2..];
      assert tail == [resp[|resp| - 2], resp[|resp| - 1]];
    }
  }

  /** Of the four two-bit AXI responses, OKAY and EXOKAY are correct, SLVERR and DECERR are errors. */
  lemma AxiResponses()
    ensures IsOk("00") && IsOk("01") && !IsOk("10") && !IsOk("11")
  {
    IsOkLowBits("00");
    IsOkLowBits("01");
    IsOkLowBits("10");
    IsOkLowBits("11");
  }

  /** The issue times of the transactions whose response is an error, in order. */
  function ErrorTimes(added: seq<(int, string)>): (r: seq<int>)
    ensures |r| <= |added|
  {
    if |added| == 0 then []
    else
      var rest := ErrorTimes(added[..|added| - 1]);
      var (time, resp) := added[|added| - 1];
      if IsOk(resp) then rest else rest + [time]
  }

  /** How many transactions had a correct response. */
  function OkCount(added: seq<(int, string)>): nat
  {
    if |added| == 0 then 0
    else OkCount(added[..|added| - 1]) + (if IsOk(added[|added| - 1].1) then 1 else 0)
  }

  /** Every transaction is counted once: as correct or as an error. */
  lemma {:induction false} ErrorsAndCorrect(added: seq<(int, string)>)
    ensures |ErrorTimes(added)| + OkCount(added) == |added|
    decreases |added|
  {
    if |added| > 0 {
      ErrorsAndCorrect(added[..|added| - 1]);
    }
  }

  class MultiChannelBusUsage {
    const busName: string
    var cmdToCompletion: seq<Period>
    var cmdToFirstData: seq<Period>
    var lastDataToCompletion: seq<Period>
    var transactionDelays: seq<Period>
    var errors: seq<int>
    var correctNum: nat
    const windowLength: int
    const clockPeriod: int
    var time: int
    /** Issue time and response of every transaction added so far. */
    ghost var added: seq<(int, string)>

    /** The four lists have one entry per transaction; `errors` and `correct_num` split the responses. */
    ghost predicate Valid()
      reads this
    {
      |cmdToCompletion| == |added| && |cmdToFirstData| == |added| &&
      |lastDataToCompletion| == |added| && |transactionDelays| == |added| &&
      errors == ErrorTimes(added) && correctNum == OkCount(added)
    }

    /** `MultiChannelBusUsage::new`: no transactions and no time yet. */
    constructor (name: string, windowLength: int, clockPeriod: int)
      ensures Valid() && added == []
      ensures busName == name && this.windowLength == windowLength && this.clockPeriod == clockPeriod
      ensures cmdToCompletion == [] && cmdToFirstData == [] && lastDataToCompletion == [] && transactionDelays == []
      ensures errors == [] && correctNum == 0 && time == 0
    {
      busName := name;
      cmdToCompletion, cmdToFirstData, lastDataToCompletion, transactionDelays := [], [], [], [];
      errors, correctNum := [], 0;
      this.windowLength := windowLength;
      this.clockPeriod := clockPeriod;
      time := 0;
      added := [];
    }

    /**
     * `add_transaction`: one period per list (issue to response, issue to first data, last data to
     * response, response to the next issue), and the response counted as correct or as an error.
     */
    method AddTransaction(time: int, respTime: int, lastWrite: int, firstData: int, resp: string, next: int)
      requires Valid() && clockPeriod > 0
      modifies this
      ensures Valid() && added == old(added) + [(time, resp)]
      ensures cmdToCompletion == old(cmdToCompletion) + [PeriodNew(time, respTime, clockPeriod)]
      ensures cmdToFirstData == old(cmdToFirstData) + [PeriodNew(time, firstData, clockPeriod)]
      ensures lastDataToCompletion == old(lastDataToCompletion) + [PeriodNew(lastWrite, respTime, clockPeriod)]
      ensures transactionDelays == old(transactionDelays) + [PeriodNew(respTime, next, clockPeriod)]
      ensures IsOk(resp) ==> correctNum == old(correctNum) + 1 && errors == old(errors)
      ensures !IsOk(resp) ==> correctNum == old(correctNum) && errors == old(errors) + [time]
      ensures this.time == old(this.time)
    {
      cmdToCompletion := cmdToCompletion + [PeriodNew(time, respTime, clockPeriod)];
      cmdToFirstData := cmdToFirstData + [PeriodNew(time, firstData, clockPeriod)];
      lastDataToCompletion := lastDataToCompletion + [PeriodNew(lastWrite, respTime, clockPeriod)];
      if IsOk(resp) {
        correctNum := correctNum + 1;
      } else {
        errors := errors + [time];
      }
      transactionDelays := transactionDelays + [PeriodNew(respTime, next, clockPeriod)];
      added := added + [(time, resp)];
      assert added[..|added| - 1] == old(added);
    }

    /** `add_time`: the analysed time grows by `t`; nothing else changes. */
    method AddTime(t: int)
      modifies this`time
      ensures time == old(time) + t
    {
      time := time + t;
    }
  }
}
