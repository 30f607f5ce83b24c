// The ID-keyed read-transaction matching engine of the AXIFullRdAnalyzerPython plugin.
module AxiFullRdPython {
  import opened Wrappers
  import opened Traces
  import opened Inflight
  import opened ReadMatching
  import opened Resets

  /** The Python exceptions the analysis can raise. */
  datatype PyError =
    | IndexError             // `clk[-1]` on an empty clock list
    | StopIteration(at: int) // no ID or last-flag sample at or before `at`
    | AssertionError(at: int)// the beat at `at` has no transaction in flight for its ID
    | NameError              // `time_table` is not defined in the plugin
    | TypeError(at: int)     // no response sample at or before `at` (`None[1]`)

  datatype Analysis =
    | Finished(records: seq<Record>, unfinished: seq<int>)
    | Raised(error: PyError)
    | Hangs(at: int) // the reset cursor can never reach the address time `at`

  /** The state of the matching loops: an exception if one was raised, the dictionary, the records and the beat cursor. */
  datatype Walk = Walk(err: Option<PyError>, counting: map<string, seq<Txn>>, order: seq<string>, records: seq<Record>, j: int)

  /**
   * What the data beat `inp.r[j]` does: look up its ID (`StopIteration` when there is none), find
   * a transaction in flight for it (`AssertionError` otherwise), read the response (`TypeError`
   * when there is none) and the last flag; a last beat completes the head transaction, any other
   * marks its first data.
   */
  function Beat(inp: Inputs, counting: map<string, seq<Txn>>, records: seq<Record>, j: int)
    : (b: (Option<PyError>, map<string, seq<Txn>>, seq<Record>))
    requires 0 <= j < |inp.r|
  {
    var read := inp.r[j];
    match RIdAt(inp, read)
    case None => (Some(StopIteration(read)), counting, records)
    case Some(x) =>
      if x !in counting || counting[x] == [] then (Some(AssertionError(read)), counting, records)
      else match RespAt(inp, read)
      case None => (Some(TypeError(read)), counting, records)
      case Some(resp) =>
        match LastAt(inp, read)
        case None => (Some(StopIteration(read)), counting, records)
        case Some(last) =>
          if last then (None, counting[x := counting[x][1..]], records + [Complete(counting[x][0], read, resp)])
          else (None, counting[x := Marked(counting[x], read)], records)
  }

  /**
   * When a beat raises: AssertionError exactly when its ID has nothing in flight, TypeError exactly
   * when it has but no response is sampled, StopIteration exactly when no ID or, past that, no last
   * flag is sampled. A beat that raises changes nothing; one that does not keeps every ID but its own.
   */
  lemma BeatRaises(inp: Inputs, counting: map<string, seq<Txn>>, records: seq<Record>, j: int)
    requires 0 <= j < |inp.r|
    ensures var b := Beat(inp, counting, records, j); var read := inp.r[j]; var x := RIdAt(inp, read);
            var queued := x.Some? && x.value in counting && counting[x.value] != [];
            (b.0 == Some(AssertionError(read)) <==> x.Some? && !queued) &&
            (b.0 == Some(TypeError(read)) <==> queued && RespAt(inp, read).None?) &&
            (b.0 == Some(StopIteration(read)) <==> x.None? || (queued && RespAt(inp, read).Some? && LastAt(inp, read).None?)) &&
            (b.0.None? <==> queued && RespAt(inp, read).Some? && LastAt(inp, read).Some?) &&
            (b.0.Some? ==> b.1 == counting && b.2 == records) &&
            (b.0.None? ==> b.1.Keys == counting.Keys && forall y :: y in counting && y != x.value ==> b.1[y] == counting[y])
  {
  }

  /**
   * The inner loop from beat `j`: beats before `nextTxn` are taken one by one; the first one after
   * `nextRst` ends the loop, raising `NameError` if anything is in flight and clearing the
   * dictionary otherwise.
   */
  function Drain(inp: Inputs, counting: map<string, seq<Txn>>, order: seq<string>, records: seq<Record>,
                 j: int, nextTxn: int, nextRst: int): (w: Walk)
    requires 0 <= j <= |inp.r|
    ensures j <= w.j <= |inp.r|
    decreases |inp.r| - j
  {
    if j == |inp.r| || inp.r[j] >= nextTxn then Walk(None, counting, order, records, j)
    else if inp.r[j] > nextRst then
      (if Pending(order, counting) != [] then Walk(Some(NameError), counting, order, records, j)
       else Walk(None, map[], [], records, j))
    else
      var b := Beat(inp, counting, records, j);
      if b.0.Some? then Walk(b.0, b.1, order, b.2, j)
      else Drain(inp, b.1, order, b.2, j + 1, nextTxn, nextRst)
  }

  /** Address event `i`: open its transaction under the ID in effect, then drain the beats before the next one. */
  function Open(inp: Inputs, counting: map<string, seq<Txn>>, order: seq<string>, records: seq<Record>,
                i: int, j: int, nextRst: int): (w: Walk)
    requires 0 <= i < |inp.ar| && 0 <= j <= |inp.r|
    ensures j <= w.j <= |inp.r|
  {
    match ArIdAt(inp, inp.ar[i])
    case None => Walk(Some(StopIteration(inp.ar[i])), counting, order, records, j)
    case Some(id) =>
      var e := Enqueue(counting, order, id, OpenedAt(inp, i));
      Drain(inp, e.0, e.1, records, j, OpenedAt(inp, i).next, nextRst)
  }

  /** The address loop from event `i`, with the reset cursor at `kr`. */
  function Rounds(inp: Inputs, counting: map<string, seq<Txn>>, order: seq<string>, records: seq<Record>,
                  i: int, j: int, kr: int): Analysis
    requires 0 <= i <= |inp.ar| && 0 <= j <= |inp.r| && 0 <= kr <= |inp.rst|
    decreases |inp.ar| - i
  {
    if i == |inp.ar| then Finished(records, Pending(order, counting))
    else
      var a := Advanced(inp.rst, inp.timeEnd, kr, inp.ar[i]);
      if a.1 then Hangs(inp.ar[i])
      else
        var w := Open(inp, counting, order, records, i, j, NextRst(inp.rst, a.0, inp.timeEnd));
        if w.err.Some? then Raised(w.err.value)
        else Rounds(inp, w.counting, w.order, w.records, i + 1, w.j, a.0)
  }

  /** The whole analysis once the lists are in place. */
  function Run(inp: Inputs): Analysis
  {
    Rounds(inp, map[], [], [], 0, 0, 0)
  }

  /**
   * One data beat `inp.r[j]` before the next address event and before the next reset: its ID must
   * have a transaction in flight; the beat marks that transaction's first data and, when it is the
   * last beat, completes it with the response sampled at the beat.
   */
  method TakeBeat(inp: Inputs, counting0: map<string, seq<Txn>>, order: seq<string>, records0: seq<Record>, i: int, j: int)
    returns (err: Option<PyError>, counting: map<string, seq<Txn>>, records: seq<Record>, j2: int)
    requires Sorted(inp) && Inv(inp, counting0, order, records0, [], i, j) && 0 < i && j < |inp.r|
    requires inp.r[j] < PeekAfter(inp.ar, i - 1, inp.timeEnd) && NoneWithin(inp.rst, inp.ar[i - 1], inp.r[j])
    ensures j2 == j + 1 && (err, counting, records) == Beat(inp, counting0, records0, j)
    ensures err.None? ==> Inv(inp, counting, order, records, [], i, j2)
    ensures err != Some(IndexError) && err != Some(NameError)
  {
    counting, records, j2 := counting0, records0, j + 1;
    var read := inp.r[j];
    var rid := RIdAt(inp, read);
    if rid.None? {
      return Some(StopIteration(read)), counting, records, j2;
    }
    var x := rid.value;
    if x !in counting || counting[x] == [] {
      return Some(AssertionError(read)), counting, records, j2;
    }
    var resp := RespAt(inp, read);
    if resp.None? {
      return Some(TypeError(read)), counting, records, j2;
    }
    var last := LastAt(inp, read);
    if last.None? {
      return Some(StopIteration(read)), counting, records, j2;
    }
    if last.value {
      assert Completes(inp, i, j, x, resp.value);
      CompletePreserves(inp, counting, order, records, [], i, j, x, resp.value);
      records := records + [Complete(counting[x][0], read, resp.value)];
      counting := counting[x := counting[x][1..]];
    } else {
      MarkPreserves(inp, counting, order, records, [], i, j, x);
      counting := counting[x := Marked(counting[x], read)];
    }
    return None, counting, records, j2;
  }

  /**
   * A beat after the reset: the plugin lists the issue times in flight, which reads the undefined
   * `time_table` as soon as there is one, and otherwise clears the (empty) dictionary.
   */
  method AtReset(inp: Inputs, counting0: map<string, seq<Txn>>, order0: seq<string>, records: seq<Record>, i: int, j: int)
    returns (err: Option<PyError>, counting: map<string, seq<Txn>>, order: seq<string>)
    requires Inv(inp, counting0, order0, records, [], i, j)
    ensures err.None? || err == Some(NameError)
    ensures err.None? <==> Pending(order0, counting0) == []
    ensures err.None? ==> counting == map[] && order == [] && Inv(inp, counting, order, records, [], i, j)
    ensures err.Some? ==> counting == counting0 && order == order0
  {
    if Pending(order0, counting0) != [] {
      return Some(NameError), counting0, order0;
    }
    DropPreserves(inp, counting0, order0, records, [], i, j);
    assert [] + Pending(order0, counting0) == [];
    return None, map[], [];
  }

  /**
   * The inner loop of `Analyzer.analyze`: consumes the data beats before the next address
   * event `nextTxn`, stopping early at the first beat after the reset time `nextRst`.
   * `kr` is the position of `nextRst` in the reset list (its length once that is used up).
   */
  method DrainBeats(inp: Inputs, counting0: map<string, seq<Txn>>, order0: seq<string>, records0: seq<Record>,
                    i: int, j0: int, nextTxn: int, nextRst: int, ghost kr: int)
    returns (err: Option<PyError>, counting: map<string, seq<Txn>>, order: seq<string>, records: seq<Record>, j: int)
    requires Sorted(inp) && Inv(inp, counting0, order0, records0, [], i, j0)
    requires 0 < i && nextTxn == PeekAfter(inp.ar, i - 1, inp.timeEnd)
    requires 0 <= kr <= |inp.rst| && (kr > 0 ==> inp.rst[kr - 1] < inp.ar[i - 1])
    requires nextRst == NextRst(inp.rst, kr, inp.timeEnd)
    ensures Walk(err, counting, order, records, j) == Drain(inp, counting0, order0, records0, j0, nextTxn, nextRst)
    ensures err.None? ==> Inv(inp, counting, order, records, [], i, j)
    ensures err != Some(IndexError)
    // the dictionary is listed while something is in flight at a beat past the reset
    ensures err == Some(NameError) ==> 0 <= j < |inp.r| && inp.r[j] > nextRst
  {
    counting, order, records, j := counting0, order0, records0, j0;
    while j < |inp.r| && inp.r[j] < nextTxn
      invariant Inv(inp, counting, order, records, [], i, j)
      invariant Drain(inp, counting, order, records, j, nextTxn, nextRst) == Drain(inp, counting0, order0, records0, j0, nextTxn, nextRst)
      decreases |inp.r| - j
    {
      var stop;
      stop, err, counting, order, records, j := DrainOne(inp, counting, order, records, i, j, nextTxn, nextRst, kr);
      if stop {
        return err, counting, order, records, j;
      }
    }
    return None, counting, order, records, j;
  }

  /** One pass of the inner loop on the beat `inp.r[j0]`: `stop` when the loop ends there. */
  method DrainOne(inp: Inputs, counting0: map<string, seq<Txn>>, order0: seq<string>, records0: seq<Record>,
                  i: int, j0: int, nextTxn: int, nextRst: int, ghost kr: int)
    returns (stop: bool, err: Option<PyError>, counting: map<string, seq<Txn>>, order: seq<string>, records: seq<Record>, j: int)
    requires Sorted(inp) && Inv(inp, counting0, order0, records0, [], i, j0)
    requires 0 < i && nextTxn == PeekAfter(inp.ar, i - 1, inp.timeEnd)
    requires 0 <= kr <= |inp.rst| && (kr > 0 ==> inp.rst[kr - 1] < inp.ar[i - 1])
    requires nextRst == NextRst(inp.rst, kr, inp.timeEnd)
    requires j0 < |inp.r| && inp.r[j0] < nextTxn
    ensures stop ==> Walk(err, counting, order, records, j) == Drain(inp, counting0, order0, records0, j0, nextTxn, nextRst)
    ensures !stop ==> j == j0 + 1 && Drain(inp, counting, order, records, j, nextTxn, nextRst) == Drain(inp, counting0, order0, records0, j0, nextTxn, nextRst)
    ensures (stop && err.None?) || !stop ==> Inv(inp, counting, order, records, [], i, j)
    ensures err != Some(IndexError)
    ensures err == Some(NameError) ==> 0 <= j < |inp.r| && inp.r[j] > nextRst
  {
    order := order0;
    if inp.r[j0] > nextRst {
      DrainAtReset(inp, counting0, order0, records0, j0, nextTxn, nextRst);
      err, counting, order := AtReset(inp, counting0, order0, records0, i, j0);
      return true, err, counting, order, records0, j0;
    }
    ResetFree(inp.rst, kr, inp.ar[i - 1], inp.r[j0]);
    err, counting, records, j := TakeBeat(inp, counting0, order0, records0, i, j0);
    DrainTakes(inp, counting0, order0, records0, j0, nextTxn, nextRst);
    if err.Some? {
      return true, err, counting, order, records, j0;
    }
    stop := false;
  }

  /** A beat past the reset ends the inner loop. */
  lemma DrainAtReset(inp: Inputs, counting: map<string, seq<Txn>>, order: seq<string>, records: seq<Record>,
                     j: int, nextTxn: int, nextRst: int)
    requires 0 <= j < |inp.r| && nextRst < inp.r[j] < nextTxn
    ensures Drain(inp, counting, order, records, j, nextTxn, nextRst) ==
            if Pending(order, counting) != [] then Walk(Some(NameError), counting, order, records, j)
            else Walk(None, map[], [], records, j)
  {
  }

  /** A beat before the reset is taken, and the loop goes on from the next one unless it raised. */
  lemma DrainTakes(inp: Inputs, counting: map<string, seq<Txn>>, order: seq<string>, records: seq<Record>,
                   j: int, nextTxn: int, nextRst: int)
    requires 0 <= j < |inp.r| && inp.r[j] < nextTxn && inp.r[j] <= nextRst
    ensures var b := Beat(inp, counting, records, j);
            Drain(inp, counting, order, records, j, nextTxn, nextRst) ==
            if b.0.Some? then Walk(b.0, b.1, order, b.2, j) else Drain(inp, b.1, order, b.2, j + 1, nextTxn, nextRst)
  {
  }

  /** One address event `inp.ar[i]`: open its transaction under the ID in effect, then drain the beats before the next one. */
  method Step(inp: Inputs, counting0: map<string, seq<Txn>>, order0: seq<string>, records0: seq<Record>,
              i: int, j0: int, nextRst: int, ghost kr: int)
    returns (err: Option<PyError>, counting: map<string, seq<Txn>>, order: seq<string>, records: seq<Record>, j: int)
    requires Sorted(inp) && Inv(inp, counting0, order0, records0, [], i, j0) && i < |inp.ar|
    requires 0 <= kr <= |inp.rst| && (kr > 0 ==> inp.rst[kr - 1] < inp.ar[i])
    requires nextRst == NextRst(inp.rst, kr, inp.timeEnd)
    ensures Walk(err, counting, order, records, j) == Open(inp, counting0, order0, records0, i, j0, nextRst)
    ensures err.None? ==> Inv(inp, counting, order, records, [], i + 1, j)
    ensures err != Some(IndexError)
    ensures err == Some(NameError) ==> 0 <= j < |inp.r| && inp.r[j] > nextRst
  {
    var time := inp.ar[i];
    var idv := ArIdAt(inp, time);
    if idv.None? {
      return Some(StopIteration(time)), counting0, order0, records0, j0;
    }
    var t := OpenedAt(inp, i);
    counting, order := Enqueue(counting0, order0, idv.value, t).0, Enqueue(counting0, order0, idv.value, t).1;
    EnqueuePreserves(inp, counting0, order0, records0, [], i, j0, idv.value, counting, order, i + 1);
    err, counting, order, records, j := DrainBeats(inp, counting, order, records0, i + 1, j0, t.next, nextRst, kr);
  }

  /** How the analysis can stop before the address events run out. */
  ghost predicate Stopped(inp: Inputs, o: Analysis)
  {
    (o.Raised? && o.error != IndexError &&
     (o.error == NameError ==>
        exists m :: 0 <= m < |inp.r| && (inp.r[m] > inp.timeEnd + 1 || exists n :: 0 <= n < |inp.rst| && inp.rst[n] < inp.r[m]))) ||
    (o.Hangs? && o.at in inp.ar && o.at > inp.timeEnd + 1)
  }

  /** An address event past the sentinel `time_end + 1` is where the analysis hangs. */
  lemma HangStops(inp: Inputs, i: int)
    requires 0 <= i < |inp.ar| && inp.ar[i] > inp.timeEnd + 1
    ensures Stopped(inp, Hangs(inp.ar[i]))
  {
  }

  /** A data beat after `next_rst` is where the analysis raises `NameError`. */
  lemma NameErrorStops(inp: Inputs, j: int, kr: int)
    requires 0 <= j < |inp.r| && 0 <= kr <= |inp.rst| && inp.r[j] > NextRst(inp.rst, kr, inp.timeEnd)
    ensures Stopped(inp, Raised(NameError))
  {
    if kr < |inp.rst| {
      assert inp.rst[kr] < inp.r[j];
    }
  }

  /** One pass of the address loop: move the reset cursor up to `inp.ar[i]`, then open and drain. */
  method Round(inp: Inputs, counting0: map<string, seq<Txn>>, order0: seq<string>, records0: seq<Record>,
               i: int, j0: int, kr0: int)
    returns (stop: Option<Analysis>, counting: map<string, seq<Txn>>, order: seq<string>, records: seq<Record>,
             j: int, kr: int)
    requires Sorted(inp) && Inv(inp, counting0, order0, records0, [], i, j0) && ResetsBefore(inp.rst, inp.ar, kr0, i) && i < |inp.ar|
    ensures stop.None? ==> Inv(inp, counting, order, records, [], i + 1, j) && ResetsBefore(inp.rst, inp.ar, kr, i + 1)
    ensures stop.None? ==> Rounds(inp, counting, order, records, i + 1, j, kr) == Rounds(inp, counting0, order0, records0, i, j0, kr0)
    ensures stop.Some? ==> Stopped(inp, stop.value) && stop.value == Rounds(inp, counting0, order0, records0, i, j0, kr0)
  {
    var time := inp.ar[i];
    assert i > 0 ==> inp.ar[i - 1] < time;
    var stuck;
    kr, stuck := AdvanceReset(inp.rst, inp.timeEnd, kr0, time);
    if stuck {
      HangStops(inp, i);
      return Some(Hangs(time)), counting0, order0, records0, j0, kr;
    }
    var nextRst := NextRst(inp.rst, kr, inp.timeEnd);
    var err;
    err, counting, order, records, j := Step(inp, counting0, order0, records0, i, j0, nextRst, kr);
    if err.Some? {
      if err.value == NameError {
        NameErrorStops(inp, j, kr);
      }
      return Some(Raised(err.value)), counting, order, records, j, kr;
    }
    assert inp.ar[i] == time;
    return None, counting, order, records, j, kr;
  }

  /**
   * The body of `Analyzer.analyze` once the lists are in place: the address loop with its reset
   * cursor, opening a transaction per address event and draining the data beats before the next.
   */
  method Match(inp: Inputs) returns (o: Analysis)
    requires Sorted(inp)
    ensures o == Run(inp)
    ensures o.Finished? ==> RecordsOk(inp, o.records) && RecordsOrdered(inp, o.records)
    ensures o.Finished? ==> multiset(RecordStarts(o.records)) + multiset(o.unfinished) == multiset(inp.ar)
    ensures !o.Finished? ==> Stopped(inp, o)
  {
    var records: seq<Record> := [];
    var counting: map<string, seq<Txn>> := map[];
    var order: seq<string> := [];
    var i, j := 0, 0;
    Initially(inp);
    // next_rst is rst[kr], or `time_end + 1` once the reset iterator is exhausted
    var kr := 0;
    while i < |inp.ar|
      invariant Inv(inp, counting, order, records, [], i, j)
      invariant ResetsBefore(inp.rst, inp.ar, kr, i)
      invariant Rounds(inp, counting, order, records, i, j, kr) == Run(inp)
    {
      var stop;
      stop, counting, order, records, j, kr := Round(inp, counting, order, records, i, j, kr);
      if stop.Some? {
        return stop.value;
      }
      i := i + 1;
    }
    Finish(inp, counting, order, records, i, j);
    return Finished(records, Pending(order, counting));
  }

  lemma Initially(inp: Inputs)
    ensures Inv(inp, map[], [], [], [], 0, 0)
  {
    assert inp.ar[..0] == [];
  }

  /** Once every address event is seen, the records and the issue times still in flight account for each once. */
  lemma Finish(inp: Inputs, counting: map<string, seq<Txn>>, order: seq<string>, records: seq<Record>, i: int, j: int)
    requires Inv(inp, counting, order, records, [], i, j) && i == |inp.ar|
    ensures RecordsOk(inp, records) && RecordsOrdered(inp, records)
    ensures multiset(RecordStarts(records)) + multiset(Pending(order, counting)) == multiset(inp.ar)
  {
    AllSeen(inp, counting, order, records, [], i);
    var none: seq<int> := [];
    assert multiset(none) == multiset{};
  }

  /**
   * `Analyzer.analyze`: rebuilds read transactions from the address events `ar`, the data
   * beats `r`, the reset changes `rst` and the ID, last-flag and response samples; the
   * simulation ends at the last clock sample.
   */
  method Analyze(clk: seq<int>, rst: seq<int>, ar: seq<int>, r: seq<int>,
                 rResp: Trace<string>, arId: Trace<string>, rId: Trace<string>, rLast: Trace<string>)
    returns (o: Analysis)
    requires StrictlyIncreasing(ar) && StrictlyIncreasing(r) && StrictlyIncreasing(rst)
    ensures o == Raised(IndexError) <==> |clk| == 0
    ensures |clk| > 0 ==> o == Run(Inputs(ar, r, rst, clk[|clk| - 1], PythonLookups(arId, rId, rLast, rResp)))
    // every record is a transaction issued on `ar` and closed by a last beat with its ID, with no
    // reset between the latest address event before the beat and the beat; per ID in issue order,
    // overall in beat order
    ensures o.Finished? ==> RecordsOk(Inputs(ar, r, rst, clk[|clk| - 1], PythonLookups(arId, rId, rLast, rResp)), o.records)
    ensures o.Finished? ==> RecordsOrdered(Inputs(ar, r, rst, clk[|clk| - 1], PythonLookups(arId, rId, rLast, rResp)), o.records)
    // every address event is completed exactly once or reported unfinished
    ensures o.Finished? ==> multiset(RecordStarts(o.records)) + multiset(o.unfinished) == multiset(ar)
    ensures o == Raised(NameError) ==>
              exists m :: 0 <= m < |r| && (r[m] > clk[|clk| - 1] + 1 || exists n :: 0 <= n < |rst| && rst[n] < r[m])
    ensures o.Hangs? ==> o.at in ar && o.at > clk[|clk| - 1] + 1
  {
    if |clk| == 0 {
      return Raised(IndexError);
    }
    o := Match(Inputs(ar, r, rst, clk[|clk| - 1], PythonLookups(arId, rId, rLast, rResp)));
  }

  /** The times of the beats `inp.r[a..b]` whose last flag reads 1, in beat order. */
  function LastBeats(inp: Inputs, a: int, b: int): (r: seq<int>)
    requires 0 <= a <= b <= |inp.r|
    ensures |r| <= b - a
    decreases b - a
  {
    if a == b then [] else (if LastAt(inp, inp.r[a]) == Some(true) then [inp.r[a]] else []) + LastBeats(inp, a + 1, b)
  }

  lemma {:induction false} LastBeatsSplit(inp: Inputs, a: int, b: int, c: int)
    requires 0 <= a <= b <= c <= |inp.r|
    ensures LastBeats(inp, a, c) == LastBeats(inp, a, b) + LastBeats(inp, b, c)
    decreases b - a
  {
    if a < b {
      LastBeatsSplit(inp, a + 1, b, c);
    }
  }

  /** A beat taken without an exception adds a record exactly when it is flagged last, closing at that beat. */
  lemma BeatCompletes(inp: Inputs, counting: map<string, seq<Txn>>, records: seq<Record>, j: int)
    requires 0 <= j < |inp.r| && Beat(inp, counting, records, j).0.None?
    ensures RespTimes(Beat(inp, counting, records, j).2) == RespTimes(records) + LastBeats(inp, j, j + 1)
  {
    var b := Beat(inp, counting, records, j);
    if LastAt(inp, inp.r[j]) == Some(true) {
      assert RespTimes(b.2) == RespTimes(records) + [inp.r[j]];
    }
  }

  /**
   * The inner loop loses no last beat: the records it adds close exactly the beats it took that are
   * flagged last, and it stops only at the end of the beats, at the next address event or past the reset.
   */
  lemma {:induction false} DrainCompletes(inp: Inputs, counting: map<string, seq<Txn>>, order: seq<string>, records: seq<Record>,
                                          j: int, nextTxn: int, nextRst: int)
    requires 0 <= j <= |inp.r|
    ensures var w := Drain(inp, counting, order, records, j, nextTxn, nextRst);
            w.err.None? ==> RespTimes(w.records) == RespTimes(records) + LastBeats(inp, j, w.j)
    ensures var w := Drain(inp, counting, order, records, j, nextTxn, nextRst);
            w.err.None? ==> w.j == |inp.r| || inp.r[w.j] >= nextTxn || inp.r[w.j] > nextRst
    decreases |inp.r| - j
  {
    if j < |inp.r| && nextRst >= inp.r[j] && inp.r[j] < nextTxn {
      var b := Beat(inp, counting, records, j);
      if b.0.None? {
        BeatCompletes(inp, counting, records, j);
        DrainCompletes(inp, b.1, order, b.2, j + 1, nextTxn, nextRst);
        var w := Drain(inp, b.1, order, b.2, j + 1, nextTxn, nextRst);
        LastBeatsSplit(inp, j, j + 1, w.j);
      }
    }
  }

  /**
   * Where a finished run may stop taking beats: all of them taken, no address event at all, the
   * first one left at or past the end of the trace, or past a reset at or after the last address event.
   */
  predicate Cut(inp: Inputs, k: int)
    requires 0 <= k <= |inp.r|
  {
    k == |inp.r| || |inp.ar| == 0 || inp.r[k] >= inp.timeEnd ||
    exists n :: 0 <= n < |inp.rst| && inp.ar[|inp.ar| - 1] <= inp.rst[n] < inp.r[k]
  }

  /** One address event loses no last beat either; after the last one, the beats left start at a cut. */
  lemma OpenCompletes(inp: Inputs, counting: map<string, seq<Txn>>, order: seq<string>, records: seq<Record>,
                      i: int, j: int, kr: int)
    requires 0 <= i < |inp.ar| && 0 <= j <= |inp.r| && 0 <= kr <= |inp.rst|
    requires !Advanced(inp.rst, inp.timeEnd, kr, inp.ar[i]).1
    ensures var w := Open(inp, counting, order, records, i, j, NextRst(inp.rst, Advanced(inp.rst, inp.timeEnd, kr, inp.ar[i]).0, inp.timeEnd));
            w.err.None? ==> RespTimes(w.records) == RespTimes(records) + LastBeats(inp, j, w.j) && (i + 1 == |inp.ar| ==> Cut(inp, w.j))
  {
    var a := Advanced(inp.rst, inp.timeEnd, kr, inp.ar[i]);
    var nextRst := NextRst(inp.rst, a.0, inp.timeEnd);
    var w := Open(inp, counting, order, records, i, j, nextRst);
    if w.err.None? {
      var id := ArIdAt(inp, inp.ar[i]).value;
      var e := Enqueue(counting, order, id, OpenedAt(inp, i));
      DrainCompletes(inp, e.0, e.1, records, j, OpenedAt(inp, i).next, nextRst);
      if i + 1 == |inp.ar| && w.j < |inp.r| && inp.r[w.j] < inp.timeEnd {
        assert inp.r[w.j] > nextRst;
        assert a.0 < |inp.rst| && inp.ar[|inp.ar| - 1] <= inp.rst[a.0] < inp.r[w.j];
      }
    }
  }

  /** From beat `j` on, the analysis `o` records exactly the last beats up to `k`, and `k` is a cut. */
  predicate CompletesFrom(inp: Inputs, o: Analysis, records: seq<Record>, j: int, k: int)
    requires 0 <= j <= |inp.r|
  {
    o.Finished? ==> j <= k <= |inp.r| && RespTimes(o.records) == RespTimes(records) + LastBeats(inp, j, k) && Cut(inp, k)
  }

  /** The address loop from event `i` loses no last beat; `k` is where a finished run stops taking beats. */
  lemma {:induction false} RoundsComplete(inp: Inputs, counting: map<string, seq<Txn>>, order: seq<string>, records: seq<Record>,
                                          i: int, j: int, kr: int) returns (k: int)
    requires 0 <= i <= |inp.ar| && 0 <= j <= |inp.r| && 0 <= kr <= |inp.rst|
    requires i == |inp.ar| ==> Cut(inp, j)
    ensures CompletesFrom(inp, Rounds(inp, counting, order, records, i, j, kr), records, j, k)
    decreases |inp.ar| - i, 1
  {
    k := j;
    if i == |inp.ar| {
      assert RespTimes(Rounds(inp, counting, order, records, i, j, kr).records) == RespTimes(records) + LastBeats(inp, j, j);
    } else if Rounds(inp, counting, order, records, i, j, kr).Finished? {
      k := RoundsCompleteStep(inp, counting, order, records, i, j, kr);
    }
  }

  /** One address event of a finished run, followed by the rest of the run. */
  lemma {:induction false} RoundsCompleteStep(inp: Inputs, counting: map<string, seq<Txn>>, order: seq<string>, records: seq<Record>,
                                              i: int, j: int, kr: int) returns (k: int)
    requires 0 <= i < |inp.ar| && 0 <= j <= |inp.r| && 0 <= kr <= |inp.rst|
    requires Rounds(inp, counting, order, records, i, j, kr).Finished?
    ensures CompletesFrom(inp, Rounds(inp, counting, order, records, i, j, kr), records, j, k)
    decreases |inp.ar| - i, 0
  {
    var o := Rounds(inp, counting, order, records, i, j, kr);
    var a, w := RoundsFinishedStep(inp, counting, order, records, i, j, kr);
    OpenCompletes(inp, counting, order, records, i, j, kr);
    k := RoundsComplete(inp, w.counting, w.order, w.records, i + 1, w.j, a.0);
    LastBeatsSplit(inp, j, w.j, k);
    ConcatChain(RespTimes(records), RespTimes(w.records), RespTimes(o.records), LastBeats(inp, j, w.j), LastBeats(inp, w.j, k), LastBeats(inp, j, k));
  }

  lemma ConcatChain(r0: seq<int>, r1: seq<int>, r2: seq<int>, l1: seq<int>, l2: seq<int>, l: seq<int>)
    requires r1 == r0 + l1 && r2 == r1 + l2 && l == l1 + l2
    ensures r2 == r0 + l
  {
  }

  /** A finished run gets past address event `i`: its round neither hangs nor raises. */
  lemma RoundsFinishedStep(inp: Inputs, counting: map<string, seq<Txn>>, order: seq<string>, records: seq<Record>,
                           i: int, j: int, kr: int) returns (a: (int, bool), w: Walk)
    requires 0 <= i < |inp.ar| && 0 <= j <= |inp.r| && 0 <= kr <= |inp.rst|
    requires Rounds(inp, counting, order, records, i, j, kr).Finished?
    ensures a == Advanced(inp.rst, inp.timeEnd, kr, inp.ar[i]) && !a.1
    ensures w == Open(inp, counting, order, records, i, j, NextRst(inp.rst, a.0, inp.timeEnd)) && w.err.None?
    ensures Rounds(inp, counting, order, records, i, j, kr) == Rounds(inp, w.counting, w.order, w.records, i + 1, w.j, a.0)
  {
    a := Advanced(inp.rst, inp.timeEnd, kr, inp.ar[i]);
    w := Open(inp, counting, order, records, i, j, NextRst(inp.rst, a.0, inp.timeEnd));
  }

  /**
   * A finished analysis loses no last beat: its records close exactly the beats flagged last among
   * the beats up to a cut, in beat order, and every beat from the cut on lies at or past the end of
   * the trace or past a reset that follows the last address event.
   */
  lemma RunRecordsEveryLastBeat(inp: Inputs)
    ensures Run(inp).Finished? ==> exists k :: 0 <= k <= |inp.r| && RespTimes(Run(inp).records) == LastBeats(inp, 0, k) && Cut(inp, k)
  {
    var k := RoundsComplete(inp, map[], [], [], 0, 0, 0);
  }

  /** A beat whose ID, response and last flag are all found completes the head of its queue. */
  lemma BeatCloses(inp: Inputs, counting: map<string, seq<Txn>>, records: seq<Record>, j: int, x: string, resp: string)
    requires 0 <= j < |inp.r| && x in counting && counting[x] != []
    requires RIdAt(inp, inp.r[j]) == Some(x) && RespAt(inp, inp.r[j]) == Some(resp) && LastAt(inp, inp.r[j]) == Some(true)
    ensures Beat(inp, counting, records, j) == (None, counting[x := counting[x][1..]], records + [Complete(counting[x][0], inp.r[j], resp)])
  {
  }

  /** Address events at 10 and 15 under one ID, a reset at 12 and a single last beat at 20. */
  function AcrossReset(): Inputs
  {
    Inputs([10, 15], [20], [12], 30, PythonLookups([(0, "a")], [(0, "a")], [(0, "1")], [(0, "OKAY")]))
  }

  /** The plugin completes the transaction issued at 10 with the beat at 20, across the reset at 12. */
  lemma CompletesAcrossReset()
    ensures Run(AcrossReset()) == Finished([Record(10, 20, 20, 20, "OKAY", 15)], [15])
    ensures AcrossReset().ar[0] < AcrossReset().rst[0] < AcrossReset().r[0]
  {
    var inp := AcrossReset();
    var t10, t15 := Txn(10, 15, None, None), Txn(15, 30, None, None);
    assert Advanced(inp.rst, 30, 0, 10) == (0, false);
    assert ArIdAt(inp, 10) == Some("a") && OpenedAt(inp, 0) == t10;
    EnqueueFirst("a", t10);
    var c1: map<string, seq<Txn>> := map["a" := [t10]];
    assert Open(inp, map[], [], [], 0, 0, 12) == Walk(None, c1, ["a"], [], 0);
    assert Advanced(inp.rst, 30, 1, 15) == (1, false);
    assert Advanced(inp.rst, 30, 0, 15) == (1, false);
    assert ArIdAt(inp, 15) == Some("a") && OpenedAt(inp, 1) == t15;
    var c2 := c1["a" := QueueAt(c1, "a") + [t15]];
    assert Enqueue(c1, ["a"], "a", t15) == (c2, ["a"]);
    assert c2["a"] == [t10, t15];
    assert RIdAt(inp, 20) == Some("a") && RespAt(inp, 20) == Some("OKAY") && LastAt(inp, 20) == Some(true);
    BeatCloses(inp, c2, [], 0, "a", "OKAY");
    var rec := Complete(t10, 20, "OKAY");
    var c3 := c2["a" := c2["a"][1..]];
    assert Drain(inp, c2, ["a"], [], 0, 30, 31) == Walk(None, c3, ["a"], [rec], 1);
    assert Open(inp, c1, ["a"], [], 1, 0, 31) == Walk(None, c3, ["a"], [rec], 1);
    assert c3["a"] == [t15];
    assert Pending(["a"], c3) == [15];
  }

  /** One address event at 10 and a last beat at 5, before it. */
  function BeatBeforeIssue(): Inputs
  {
    Inputs([10], [5], [], 30, PythonLookups([(0, "a")], [(0, "a")], [(0, "1")], [(0, "OKAY")]))
  }

  /** The plugin records a transaction whose data came before its issue. */
  lemma CompletesBeforeIssue()
    ensures Run(BeatBeforeIssue()) == Finished([Record(10, 5, 5, 5, "OKAY", 30)], [])
  {
    var inp := BeatBeforeIssue();
    var t10 := Txn(10, 30, None, None);
    assert Advanced(inp.rst, 30, 0, 10) == (0, false);
    assert ArIdAt(inp, 10) == Some("a") && OpenedAt(inp, 0) == t10;
    EnqueueFirst("a", t10);
    var c1: map<string, seq<Txn>> := map["a" := [t10]];
    assert RIdAt(inp, 5) == Some("a") && RespAt(inp, 5) == Some("OKAY") && LastAt(inp, 5) == Some(true);
    BeatCloses(inp, c1, [], 0, "a", "OKAY");
    var rec := Complete(t10, 5, "OKAY");
    var c2 := c1["a" := c1["a"][1..]];
    assert Drain(inp, c1, ["a"], [], 0, 30, 31) == Walk(None, c2, ["a"], [rec], 1);
    assert Open(inp, map[], [], [], 0, 0, 31) == Walk(None, c2, ["a"], [rec], 1);
    assert c2["a"] == [];
    assert Pending(["a"], c2) == [];
  }
}
