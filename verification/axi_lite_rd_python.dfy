// The single-outstanding read matching of the AXILiteRdAnalyzerPython plugin: each address event is
// answered by at most one data beat, the next one, if it comes before the next reset.
module AxiLiteRdPython {
  import opened Wrappers
  import opened Traces
  import opened Inflight
  import opened Resets
  import opened ReadMatching
  import Py = AxiFullRdPython

  /** What `Analyzer.analyze` works on: event times, reset edges and the response samples. */
  datatype LiteInputs = LiteInputs(ar: seq<int>, r: seq<int>, rst: seq<int>, timeEnd: int, rResp: Trace<string>)

  datatype LiteAnalysis =
    | Finished(records: seq<Record>)
    | Raised(error: Py.PyError)
    | Hangs(at: int) // the reset cursor can never reach the address time `at`

  predicate LiteSorted(inp: LiteInputs)
  {
    StrictlyIncreasing(inp.ar) && StrictlyIncreasing(inp.r) && StrictlyIncreasing(inp.rst)
  }

  /**
   * What every record satisfies: it answers an address event, with `next` the following address
   * event or the end of time; one data beat is its first, last and response time; no reset lies
   * between the address event and the beat; its response is the latest sample at or before the beat;
   * and no other data beat falls between the beat and `next`.
   */
  ghost predicate LiteRecordOk(inp: LiteInputs, rec: Record)
  {
    Issued(inp.ar, inp.timeEnd, rec.start, rec.next) &&
    rec.respTime in inp.r && rec.firstData == rec.respTime && rec.lastData == rec.respTime &&
    NoneWithin(inp.rst, rec.start, rec.respTime + 1) &&
    LatestAtOrBefore(inp.rResp, rec.respTime) == Some(rec.resp) &&
    NoneWithin(inp.r, rec.respTime + 1, rec.next)
  }

  /** Records come out in address order and use distinct beats, in beat order. */
  ghost predicate LiteOrdered(records: seq<Record>)
  {
    forall a, b :: 0 <= a < b < |records| ==>
      records[a].start < records[b].start && records[a].respTime < records[b].respTime
  }

  /**
   * The loop state before address event `i` with the data cursor at `j`: the records so far are
   * well formed and ordered, and they used address events before `i` and beats before `j`.
   */
  ghost predicate LiteInv(inp: LiteInputs, records: seq<Record>, i: int, j: int)
  {
    0 <= i <= |inp.ar| && 0 <= j <= |inp.r| &&
    (forall q :: 0 <= q < |records| ==> LiteRecordOk(inp, records[q])) &&
    LiteOrdered(records) &&
    (|records| > 0 ==> 0 < i && records[|records| - 1].start <= inp.ar[i - 1]) &&
    (|records| > 0 ==> 0 < j && records[|records| - 1].respTime <= inp.r[j - 1])
  }

  lemma LiteSnoc(inp: LiteInputs, records: seq<Record>, i: int, j: int, rec: Record)
    requires LiteSorted(inp) && LiteInv(inp, records, i, j) && i < |inp.ar| && j < |inp.r|
    requires LiteRecordOk(inp, rec) && rec.start == inp.ar[i] && rec.respTime == inp.r[j]
    ensures LiteInv(inp, records + [rec], i + 1, j + 1)
  {
    var rs := records + [rec];
    forall a, b | 0 <= a < b < |rs| ensures rs[a].start < rs[b].start && rs[a].respTime < rs[b].respTime {
      if b == |records| {
        assert rs[a] == records[a];
        if a < |records| - 1 {
          assert records[a].start < records[|records| - 1].start;
          assert records[a].respTime < records[|records| - 1].respTime;
        }
      } else {
        assert rs[a] == records[a] && rs[b] == records[b];
      }
    }
  }

  /**
   * The loop of `Analyzer.analyze` from address event `i`, with the data cursor at `j` and the
   * reset cursor at `kr`: an address event takes the next data beat when that beat comes before
   * the next reset, and is left unanswered otherwise.
   */
  function LiteRounds(inp: LiteInputs, records: seq<Record>, i: int, j: int, kr: int): LiteAnalysis
    requires 0 <= i <= |inp.ar| && 0 <= j <= |inp.r| && 0 <= kr <= |inp.rst|
    decreases |inp.ar| - i
  {
    if i == |inp.ar| then Finished(records)
    else
      var time := inp.ar[i];
      var a := Advanced(inp.rst, inp.timeEnd, kr, time);
      if a.1 then Hangs(time)
      else if j == |inp.r| then Raised(Py.StopIteration(time))
      else if NextRst(inp.rst, a.0, inp.timeEnd) > inp.r[j] then
        var read := inp.r[j];
        var nextTxn := PeekAfter(inp.ar, i, inp.timeEnd);
        if j + 1 < |inp.r| && inp.r[j + 1] < nextTxn then Raised(Py.NameError)
        else match LatestAtOrBefore(inp.rResp, read)
          case None => Raised(Py.TypeError(read))
          case Some(resp) => LiteRounds(inp, records + [Record(time, read, read, read, resp, nextTxn)], i + 1, j + 1, a.0)
      else LiteRounds(inp, records, i + 1, j, a.0)
  }

  /** An address event that takes beat `inp.r[j]` and its response: the analysis goes on from the next one. */
  lemma LiteRoundsTake(inp: LiteInputs, records: seq<Record>, i: int, j: int, kr0: int, kr: int, resp: string)
    requires 0 <= i < |inp.ar| && 0 <= j < |inp.r| && 0 <= kr0 <= |inp.rst|
    requires Advanced(inp.rst, inp.timeEnd, kr0, inp.ar[i]) == (kr, false) && NextRst(inp.rst, kr, inp.timeEnd) > inp.r[j]
    requires !(j + 1 < |inp.r| && inp.r[j + 1] < PeekAfter(inp.ar, i, inp.timeEnd))
    requires LatestAtOrBefore(inp.rResp, inp.r[j]) == Some(resp)
    ensures LiteRounds(inp, records, i, j, kr0) ==
            LiteRounds(inp, records + [Record(inp.ar[i], inp.r[j], inp.r[j], inp.r[j], resp, PeekAfter(inp.ar, i, inp.timeEnd))], i + 1, j + 1, kr)
  {
  }

  /** The whole analysis once the iterators are in place. */
  function LiteRun(inp: LiteInputs): LiteAnalysis
  {
    LiteRounds(inp, [], 0, 0, 0)
  }

  /**
   * One pass of the loop of `Analyzer.analyze` for address event `inp.ar[i]`: move the reset
   * cursor, then take the next data beat if it is before the next reset, and check that no other
   * beat comes before the following address event.
   */
  method LiteRound(inp: LiteInputs, records0: seq<Record>, i: int, j0: int, kr0: int)
    returns (stop: Option<LiteAnalysis>, records: seq<Record>, j: int, kr: int)
    requires LiteSorted(inp) && LiteInv(inp, records0, i, j0) && ResetsBefore(inp.rst, inp.ar, kr0, i) && i < |inp.ar|
    ensures stop.None? ==> LiteInv(inp, records, i + 1, j) && ResetsBefore(inp.rst, inp.ar, kr, i + 1)
    // the address event is answered exactly when the next beat comes before the next reset,
    // and then by that beat alone
    ensures stop.None? ==> kr == Advanced(inp.rst, inp.timeEnd, kr0, inp.ar[i]).0
    ensures stop.None? ==> j0 < |inp.r| && (j == j0 + 1 <==> inp.r[j0] < NextRst(inp.rst, kr, inp.timeEnd))
    ensures stop.None? && j == j0 + 1 ==>
              exists resp :: records == records0 + [Record(inp.ar[i], inp.r[j0], inp.r[j0], inp.r[j0], resp, PeekAfter(inp.ar, i, inp.timeEnd))]
    ensures stop.None? && j != j0 + 1 ==> j == j0 && records == records0
    ensures stop.None? ==> j0 <= j <= j0 + 1 && |records| - |records0| == j - j0
    ensures stop.None? ==> LiteRounds(inp, records, i + 1, j, kr) == LiteRounds(inp, records0, i, j0, kr0)
    ensures stop.Some? ==> LiteStopped(inp, stop.value) && stop.value == LiteRounds(inp, records0, i, j0, kr0)
  {
    records, j := records0, j0;
    var time := inp.ar[i];
    assert i > 0 ==> inp.ar[i - 1] < time;
    var stuck;
    kr, stuck := AdvanceReset(inp.rst, inp.timeEnd, kr0, time);
    if stuck {
      return Some(Hangs(time)), records, j, kr;
    }
    if j == |inp.r| {
      // `r.peek()` without a default on an exhausted iterator
      return Some(Raised(Py.StopIteration(time))), records, j, kr;
    }
    if NextRst(inp.rst, kr, inp.timeEnd) > inp.r[j] {
      var err;
      err, records := LiteTake(inp, records0, i, j, kr0, kr);
      if err.Some? {
        return Some(Raised(err.value)), records, j, kr;
      }
      j := j + 1;
    }
    return None, records, j, kr;
  }

  /**
   * Address event `inp.ar[i]` takes data beat `inp.r[j]`, which comes before the next reset: no
   * other beat may come before the next address event, and the response is the one sampled at the
   * beat.
   */
  method LiteTake(inp: LiteInputs, records0: seq<Record>, i: int, j: int, ghost kr0: int, kr: int)
    returns (err: Option<Py.PyError>, records: seq<Record>)
    requires LiteSorted(inp) && LiteInv(inp, records0, i, j) && i < |inp.ar| && j < |inp.r|
    requires 0 <= kr0 <= |inp.rst| && Advanced(inp.rst, inp.timeEnd, kr0, inp.ar[i]) == (kr, false)
    requires kr > 0 ==> inp.rst[kr - 1] < inp.ar[i]
    requires NextRst(inp.rst, kr, inp.timeEnd) > inp.r[j]
    ensures err.None? ==> LiteInv(inp, records, i + 1, j + 1)
    ensures err.None? ==>
              exists resp :: records == records0 + [Record(inp.ar[i], inp.r[j], inp.r[j], inp.r[j], resp, PeekAfter(inp.ar, i, inp.timeEnd))]
    ensures err.None? ==> LiteRounds(inp, records, i + 1, j + 1, kr) == LiteRounds(inp, records0, i, j, kr0)
    ensures err.Some? ==> LiteStopped(inp, Raised(err.value)) && Raised(err.value) == LiteRounds(inp, records0, i, j, kr0)
  {
    records := records0;
    var read := inp.r[j];
    var nextTxn := PeekAfter(inp.ar, i, inp.timeEnd);
    ResetFree(inp.rst, kr, inp.ar[i], read + 1);
    if j + 1 < |inp.r| && inp.r[j + 1] < nextTxn {
      // the warning about the beat without address reads the undefined `time_table`
      LiteNameErrorStops(inp, i, j);
      return Some(Py.NameError), records;
    }
    var resp := LatestAtOrBefore(inp.rResp, read);
    if resp.None? {
      return Some(Py.TypeError(read)), records;
    }
    LiteAnswer(inp, records, i, j, resp.value);
    LiteRoundsTake(inp, records, i, j, kr0, kr, resp.value);
    records := records + [Record(inp.ar[i], read, read, read, resp.value, nextTxn)];
    return None, records;
  }

  /** How the analysis can stop before the address events run out. */
  ghost predicate LiteStopped(inp: LiteInputs, o: LiteAnalysis)
  {
    (o.Raised? && (o.error.StopIteration? ==> o.error.at in inp.ar) &&
     // a beat taken for an address event is followed by another before the next address event
     (o.error == Py.NameError ==>
        exists k, m :: 0 <= k < |inp.ar| && 0 <= m < |inp.r| - 1 &&
          NoneWithin(inp.rst, inp.ar[k], inp.r[m] + 1) && inp.r[m + 1] < PeekAfter(inp.ar, k, inp.timeEnd)) &&
     o.error != Py.IndexError && !o.error.AssertionError?) ||
    (o.Hangs? && o.at in inp.ar && o.at > inp.timeEnd + 1)
  }

  /** A second beat before the next address event, with no reset since the issue, raises `NameError`. */
  lemma LiteNameErrorStops(inp: LiteInputs, i: int, j: int)
    requires 0 <= i < |inp.ar| && 0 <= j && j + 1 < |inp.r|
    requires NoneWithin(inp.rst, inp.ar[i], inp.r[j] + 1) && inp.r[j + 1] < PeekAfter(inp.ar, i, inp.timeEnd)
    ensures LiteStopped(inp, Raised(Py.NameError))
  {
  }

  /**
   * The beat `inp.r[j]` taken for address event `inp.ar[i]`, with no reset in between and no other
   * beat before the next address event, answers it with the response sampled at the beat.
   */
  lemma LiteAnswer(inp: LiteInputs, records: seq<Record>, i: int, j: int, resp: string)
    requires LiteSorted(inp) && LiteInv(inp, records, i, j) && i < |inp.ar| && j < |inp.r|
    requires NoneWithin(inp.rst, inp.ar[i], inp.r[j] + 1)
    requires !(j + 1 < |inp.r| && inp.r[j + 1] < PeekAfter(inp.ar, i, inp.timeEnd))
    requires LatestAtOrBefore(inp.rResp, inp.r[j]) == Some(resp)
    ensures LiteInv(inp, records + [Record(inp.ar[i], inp.r[j], inp.r[j], inp.r[j], resp, PeekAfter(inp.ar, i, inp.timeEnd))], i + 1, j + 1)
  {
    var read, nextTxn := inp.r[j], PeekAfter(inp.ar, i, inp.timeEnd);
    assert NoneWithin(inp.r, read + 1, nextTxn) by {
      forall m | 0 <= m < |inp.r| ensures !(read + 1 <= inp.r[m] < nextTxn) {
        if m > j + 1 { assert inp.r[j + 1] < inp.r[m]; }
        if m < j { assert inp.r[m] < inp.r[j]; }
      }
    }
    var rec := Record(inp.ar[i], read, read, read, resp, nextTxn);
    assert LiteRecordOk(inp, rec);
    LiteSnoc(inp, records, i, j, rec);
  }

  /** The loop of `Analyzer.analyze` once the iterators are in place. */
  method LiteMatch(inp: LiteInputs) returns (o: LiteAnalysis)
    requires LiteSorted(inp)
    ensures o == LiteRun(inp)
    ensures o.Finished? ==> (forall q :: 0 <= q < |o.records| ==> LiteRecordOk(inp, o.records[q])) && LiteOrdered(o.records)
    ensures o.Finished? ==> |o.records| <= |inp.ar| && |o.records| <= |inp.r|
    ensures !o.Finished? ==> LiteStopped(inp, o)
  {
    var records: seq<Record> := [];
    var i, j, kr := 0, 0, 0;
    while i < |inp.ar|
      invariant LiteInv(inp, records, i, j) && ResetsBefore(inp.rst, inp.ar, kr, i)
      invariant |records| <= i && |records| <= j
      invariant LiteRounds(inp, records, i, j, kr) == LiteRun(inp)
    {
      var stop;
      stop, records, j, kr := LiteRound(inp, records, i, j, kr);
      if stop.Some? {
        return stop.value;
      }
      i := i + 1;
    }
    return Finished(records);
  }

  /**
   * `Analyzer.analyze`: rebuilds read transactions from the address events `ar`, the data beats `r`,
   * the reset edges `rst` and the response samples; the simulation ends at the last clock sample.
   */
  method LiteAnalyze(clk: seq<int>, rst: seq<int>, ar: seq<int>, r: seq<int>, rResp: Trace<string>)
    returns (o: LiteAnalysis)
    requires StrictlyIncreasing(ar) && StrictlyIncreasing(r) && StrictlyIncreasing(rst)
    ensures o == Raised(Py.IndexError) <==> |clk| == 0
    ensures |clk| > 0 ==> o == LiteRun(LiteInputs(ar, r, rst, clk[|clk| - 1], rResp))
    ensures o.Finished? ==>
              (forall q :: 0 <= q < |o.records| ==> LiteRecordOk(LiteInputs(ar, r, rst, clk[|clk| - 1], rResp), o.records[q])) &&
              LiteOrdered(o.records)
    ensures !o.Finished? && |clk| > 0 ==> LiteStopped(LiteInputs(ar, r, rst, clk[|clk| - 1], rResp), o)
  {
    if |clk| == 0 {
      return Raised(Py.IndexError);
    }
    o := LiteMatch(LiteInputs(ar, r, rst, clk[|clk| - 1], rResp));
  }

  /** The beats answer address events in turn: the `q`-th record closes the `q`-th data beat. */
  ghost predicate BeatsInTurn(inp: LiteInputs, records: seq<Record>)
  {
    |records| <= |inp.r| && forall q :: 0 <= q < |records| ==> records[q].respTime == inp.r[q]
  }

  lemma {:induction false} LiteRoundsInTurn(inp: LiteInputs, records: seq<Record>, i: int, j: int, kr: int)
    requires 0 <= i <= |inp.ar| && 0 <= j <= |inp.r| && 0 <= kr <= |inp.rst|
    requires |records| == j && BeatsInTurn(inp, records)
    ensures LiteRounds(inp, records, i, j, kr).Finished? ==> BeatsInTurn(inp, LiteRounds(inp, records, i, j, kr).records)
    decreases |inp.ar| - i
  {
    if i < |inp.ar| {
      var time := inp.ar[i];
      var a := Advanced(inp.rst, inp.timeEnd, kr, time);
      if !a.1 && j < |inp.r| {
        if NextRst(inp.rst, a.0, inp.timeEnd) > inp.r[j] {
          var resp := LatestAtOrBefore(inp.rResp, inp.r[j]);
          if resp.Some? {
            var rs := records + [Record(time, inp.r[j], inp.r[j], inp.r[j], resp.value, PeekAfter(inp.ar, i, inp.timeEnd))];
            LiteRoundsInTurn(inp, rs, i + 1, j + 1, a.0);
          }
        } else {
          LiteRoundsInTurn(inp, records, i + 1, j, a.0);
        }
      }
    }
  }

  /**
   * No beat is skipped: in a finished analysis the records close the first data beats in order,
   * one each, so an address event goes unanswered only when the beat waiting for it comes at or
   * after the next reset.
   */
  lemma LiteRunInTurn(inp: LiteInputs)
    ensures LiteRun(inp).Finished? ==> BeatsInTurn(inp, LiteRun(inp).records)
  {
    LiteRoundsInTurn(inp, [], 0, 0, 0);
  }

  /** One address event at 10 and a beat at 5, before it. */
  function LiteBeatBeforeIssue(): LiteInputs
  {
    LiteInputs([10], [5], [], 30, [(0, "OKAY")])
  }

  /** The plugin answers the address event at 10 with the beat at 5. */
  lemma LiteAnswersBeforeIssue()
    ensures LiteRun(LiteBeatBeforeIssue()) == Finished([Record(10, 5, 5, 5, "OKAY", 30)])
  {
    var inp := LiteBeatBeforeIssue();
    assert Advanced(inp.rst, 30, 0, 10) == (0, false);
    assert LatestAtOrBefore(inp.rResp, 5) == Some("OKAY");
  }
}
