// The read side of the Rust AXI analyzer (src/analyze/analyzer/axi_analyzer.rs): `calculate_full`,
// which matches R beats to AR requests per ID, and `calculate_lite`, which pairs each AR with the next
// R beat. Times are time-table indices; the attribute signals are sampled one index before an event.
module AxiRead {
  import opened Wrappers
  import opened Traces
  import opened Bus
  import opened AxiSampling
  import opened Resets
  import opened Inflight
  import opened ReadMatching

  /** The `Err` values the read analysis returns, each with the event index it names. */
  datatype RdError =
    | ArIdInvalid(at: int)
    | RIdInvalid(at: int)
    | RLastInvalid(at: int)
    | RRespInvalid(at: int)

  /** The end of an analysis: the records and warnings, an `Err`, or a reset loop that never ends. */
  datatype Outcome =
    | Done(records: seq<Record>, unfinished: seq<int>, orphans: seq<int>)
    | Failed(error: RdError)
    | Hangs(at: int)

  /** What happened to one R beat. */
  datatype Beat = Taken | Orphan(at: int) | Fail(error: RdError)

  /** The state of the `calculate_full` loops: an error if one was returned, the dictionary, the lists and the R cursor. */
  datatype Walk = Walk(err: Option<RdError>, counting: map<string, seq<Txn>>, order: seq<string>, records: seq<Record>,
                       dropped: seq<int>, orphans: seq<int>, j: int)

  /**
   * What the R beat `inp.r[j]` does: an unreadable `rid` is an error; an ID with nothing in
   * flight makes the beat an orphan; otherwise an unreadable `rlast` is an error, a beat with
   * `rlast` 0 marks the head transaction's first data, and one with `rlast` 1 completes it with the
   * response, which must be readable.
   */
  function OnBeat(inp: Inputs, counting: map<string, seq<Txn>>, records: seq<Record>, j: int)
    : (b: (Beat, map<string, seq<Txn>>, seq<Record>))
    requires 0 <= j < |inp.r|
  {
    var read := inp.r[j];
    match RIdAt(inp, read)
    case None => (Fail(RIdInvalid(read)), counting, records)
    case Some(x) =>
      if x !in counting || counting[x] == [] then (Orphan(read), counting, records)
      else match LastAt(inp, read)
      case None => (Fail(RLastInvalid(read)), counting, records)
      case Some(last) =>
        if !last then (Taken, counting[x := Marked(counting[x], read)], records)
        else match RespAt(inp, read)
        case None => (Fail(RRespInvalid(read)), counting, records)
        case Some(resp) => (Taken, counting[x := counting[x][1..]], records + [Complete(counting[x][0], read, resp)])
  }

  /**
   * When an R beat ends the R loop: an unreadable `rid`, or for an ID in flight an unreadable `rlast`
   * or, on a last beat, an unreadable `rresp`, is an error naming the beat; an ID with nothing in
   * flight is an orphan. Neither changes the state; a taken beat keeps every ID but its own.
   */
  lemma OnBeatFails(inp: Inputs, counting: map<string, seq<Txn>>, records: seq<Record>, j: int)
    requires 0 <= j < |inp.r|
    ensures var b := OnBeat(inp, counting, records, j); var read := inp.r[j]; var x := RIdAt(inp, read);
            var queued := x.Some? && x.value in counting && counting[x.value] != [];
            (b.0 == Fail(RIdInvalid(read)) <==> x.None?) &&
            (b.0 == Orphan(read) <==> x.Some? && !queued) &&
            (b.0 == Fail(RLastInvalid(read)) <==> queued && LastAt(inp, read).None?) &&
            (b.0 == Fail(RRespInvalid(read)) <==> queued && LastAt(inp, read) == Some(true) && RespAt(inp, read).None?) &&
            (b.0 == Taken <==> queued && (LastAt(inp, read) == Some(false) || (LastAt(inp, read) == Some(true) && RespAt(inp, read).Some?))) &&
            (b.0 != Taken ==> b.1 == counting && b.2 == records) &&
            (b.0 == Taken ==> b.1.Keys == counting.Keys && forall y :: y in counting && y != x.value ==> b.1[y] == counting[y])
  {
  }

  /**
   * The R loop from beat `j`: beats before `nextTxn` are taken one by one; the first one after
   * `nextRst` moves everything in flight to the unfinished list and clears the dictionary; an
   * orphan or an error ends the loop after its beat.
   */
  function Drain(inp: Inputs, counting: map<string, seq<Txn>>, order: seq<string>, records: seq<Record>,
                 dropped: seq<int>, orphans: seq<int>, j: int, nextTxn: int, nextRst: int): (w: Walk)
    requires 0 <= j <= |inp.r|
    ensures j <= w.j <= |inp.r|
    decreases |inp.r| - j
  {
    if j == |inp.r| || inp.r[j] >= nextTxn then Walk(None, counting, order, records, dropped, orphans, j)
    else if inp.r[j] > nextRst then Walk(None, map[], [], records, dropped + Pending(order, counting), orphans, j)
    else
      var b := OnBeat(inp, counting, records, j);
      match b.0
      case Fail(e) => Walk(Some(e), b.1, order, b.2, dropped, orphans, j + 1)
      case Orphan(at) => Walk(None, b.1, order, b.2, dropped, orphans + [at], j + 1)
      case Taken => Drain(inp, b.1, order, b.2, dropped, orphans, j + 1, nextTxn, nextRst)
  }

  /** `'transaction_loop` from AR `i`, with the reset cursor at `kr`. */
  function Rounds(inp: Inputs, counting: map<string, seq<Txn>>, order: seq<string>, records: seq<Record>,
                  dropped: seq<int>, orphans: seq<int>, i: int, j: int, kr: int): Outcome
    requires 0 <= i <= |inp.ar| && 0 <= j <= |inp.r| && 0 <= kr <= |inp.rst|
    decreases |inp.ar| - i
  {
    if i == |inp.ar| then Done(records, dropped + Pending(order, counting), orphans)
    else
      var a := Advanced(inp.rst, inp.timeEnd, kr, inp.ar[i]);
      if a.1 then Hangs(inp.ar[i])
      else match ArIdAt(inp, inp.ar[i])
      case None => Failed(ArIdInvalid(inp.ar[i]))
      case Some(id) =>
        var e := Enqueue(counting, order, id, OpenedAt(inp, i));
        var w := Drain(inp, e.0, e.1, records, dropped, orphans, j, OpenedAt(inp, i).next, NextRst(inp.rst, a.0, inp.timeEnd));
        if w.err.Some? then Failed(w.err.value)
        else Rounds(inp, w.counting, w.order, w.records, w.dropped, w.orphans, i + 1, w.j, a.0)
  }

  /** `calculate_full` on one interval. */
  function Run(inp: Inputs): Outcome
  {
    Rounds(inp, map[], [], [], [], [], 0, 0, 0)
  }

  /** Every orphan warning names an R beat whose ID could be read. */
  ghost predicate OrphansOk(inp: Inputs, orphans: seq<int>)
  {
    forall k :: 0 <= k < |orphans| ==> orphans[k] in inp.r && RIdAt(inp, orphans[k]).Some?
  }

  lemma OrphansAppend(inp: Inputs, a: seq<int>, b: seq<int>)
    requires OrphansOk(inp, a) && OrphansOk(inp, b)
    ensures OrphansOk(inp, a + b)
  {
    forall k | 0 <= k < |a + b| ensures (a + b)[k] in inp.r && RIdAt(inp, (a + b)[k]).Some? {
      if k >= |a| { assert (a + b)[k] == b[k - |a|]; }
    }
  }

  /** Each error names an event whose sampled attribute is missing. */
  ghost predicate ErrorOk(inp: Inputs, e: RdError)
  {
    match e
    case ArIdInvalid(at) => at in inp.ar && ArIdAt(inp, at).None?
    case RIdInvalid(at) => at in inp.r && RIdAt(inp, at).None?
    case RLastInvalid(at) => at in inp.r && RIdAt(inp, at).Some? && LastAt(inp, at).None?
    case RRespInvalid(at) => at in inp.r && LastAt(inp, at) == Some(true) && RespAt(inp, at).None?
  }

  /**
   * One R beat `inp.r[j]` before the next AR and no later than the next reset: it is consumed; a
   * beat whose ID has no transaction in flight is an orphan; otherwise it marks the head
   * transaction's first data and, when `rlast` is 1, completes it with the response.
   */
  method TakeBeat(inp: Inputs, counting0: map<string, seq<Txn>>, order: seq<string>, records0: seq<Record>,
                  dropped: seq<int>, i: int, j: int)
    returns (b: Beat, counting: map<string, seq<Txn>>, records: seq<Record>, j2: int)
    requires Sorted(inp) && Inv(inp, counting0, order, records0, dropped, i, j) && 0 < i && j < |inp.r|
    requires inp.r[j] < PeekAfter(inp.ar, i - 1, inp.timeEnd) && NoneWithin(inp.rst, inp.ar[i - 1], inp.r[j])
    ensures j2 == j + 1 && (b, counting, records) == OnBeat(inp, counting0, records0, j)
    ensures !b.Fail? ==> Inv(inp, counting, order, records, dropped, i, j2)
    ensures b.Fail? ==> ErrorOk(inp, b.error) && b.error.at == inp.r[j]
    ensures b.Orphan? ==> counting == counting0 && records == records0 && b.at == inp.r[j] && OrphansOk(inp, [b.at]) && RIdAt(inp, b.at).Some? &&
                          QueueAt(counting0, RIdAt(inp, b.at).value) == []
  {
    counting, records, j2 := counting0, records0, j + 1;
    var read := inp.r[j];
    assert read in inp.r;
    var rid := RIdAt(inp, read);
    if rid.None? {
      return Fail(RIdInvalid(read)), counting, records, j2;
    }
    var x := rid.value;
    if x !in counting || counting[x] == [] {
      SkipPreserves(inp, counting, order, records, dropped, i, j);
      return Orphan(read), counting, records, j2;
    }
    var last := LastAt(inp, read);
    if last.None? {
      return Fail(RLastInvalid(read)), counting, records, j2;
    }
    if last.value {
      var resp := RespAt(inp, read);
      if resp.None? {
        return Fail(RRespInvalid(read)), counting, records, j2;
      }
      assert Completes(inp, i, j, x, resp.value);
      CompletePreserves(inp, counting, order, records, dropped, i, j, x, resp.value);
      records := records + [Complete(counting[x][0], read, resp.value)];
      counting := counting[x := counting[x][1..]];
    } else {
      MarkPreserves(inp, counting, order, records, dropped, i, j, x);
      counting := counting[x := Marked(counting[x], read)];
    }
    return Taken, counting, records, j2;
  }

  /** At a reset, everything in flight joins the unfinished list and the dictionary is cleared. */
  method AtReset(inp: Inputs, counting: map<string, seq<Txn>>, order: seq<string>, records: seq<Record>,
                 dropped0: seq<int>, i: int, j: int)
    returns (dropped: seq<int>)
    requires Inv(inp, counting, order, records, dropped0, i, j)
    ensures dropped == dropped0 + Pending(order, counting)
    ensures Inv(inp, map[], [], records, dropped, i, j)
  {
    DropPreserves(inp, counting, order, records, dropped0, i, j);
    dropped := dropped0 + Pending(order, counting);
  }

  /**
   * The R loop of `calculate_full` for one AR: consumes the beats before the next AR `nextTxn`; a
   * beat after the reset `nextRst` moves everything in flight to the unfinished list, clears the
   * dictionary and is left for the next AR; an orphan beat ends the loop as well.
   */
  method DrainBeats(inp: Inputs, counting0: map<string, seq<Txn>>, order0: seq<string>, records0: seq<Record>,
                    dropped0: seq<int>, orphans0: seq<int>, i: int, j0: int, nextTxn: int, nextRst: int, ghost kr: int)
    returns (err: Option<RdError>, counting: map<string, seq<Txn>>, order: seq<string>, records: seq<Record>,
             dropped: seq<int>, orphans: seq<int>, j: int)
    requires Sorted(inp) && Inv(inp, counting0, order0, records0, dropped0, i, j0) && OrphansOk(inp, orphans0)
    requires 0 < i && nextTxn == PeekAfter(inp.ar, i - 1, inp.timeEnd)
    requires 0 <= kr <= |inp.rst| && (kr > 0 ==> inp.rst[kr - 1] < inp.ar[i - 1])
    requires nextRst == NextRst(inp.rst, kr, inp.timeEnd)
    ensures Walk(err, counting, order, records, dropped, orphans, j) == Drain(inp, counting0, order0, records0, dropped0, orphans0, j0, nextTxn, nextRst)
    ensures err.None? ==> Inv(inp, counting, order, records, dropped, i, j) && OrphansOk(inp, orphans)
    ensures err.Some? ==> ErrorOk(inp, err.value)
  {
    counting, order, records, dropped, orphans, j := counting0, order0, records0, dropped0, orphans0, j0;
    while j < |inp.r| && inp.r[j] < nextTxn
      invariant Inv(inp, counting, order, records, dropped, i, j) && OrphansOk(inp, orphans)
      invariant Drain(inp, counting, order, records, dropped, orphans, j, nextTxn, nextRst) == Drain(inp, counting0, order0, records0, dropped0, orphans0, j0, nextTxn, nextRst)
      decreases |inp.r| - j
    {
      var stop;
      stop, err, counting, order, records, dropped, orphans, j := DrainOne(inp, counting, order, records, dropped, orphans, i, j, nextTxn, nextRst, kr);
      if stop {
        return;
      }
    }
    return None, counting, order, records, dropped, orphans, j;
  }

  /** One pass of the R loop on the beat `inp.r[j0]`: `stop` when the loop ends there. */
  method DrainOne(inp: Inputs, counting0: map<string, seq<Txn>>, order0: seq<string>, records0: seq<Record>,
                  dropped0: seq<int>, orphans0: seq<int>, i: int, j0: int, nextTxn: int, nextRst: int, ghost kr: int)
    returns (stop: bool, err: Option<RdError>, counting: map<string, seq<Txn>>, order: seq<string>, records: seq<Record>,
             dropped: seq<int>, orphans: seq<int>, j: int)
    requires Sorted(inp) && Inv(inp, counting0, order0, records0, dropped0, i, j0) && OrphansOk(inp, orphans0)
    requires 0 < i && nextTxn == PeekAfter(inp.ar, i - 1, inp.timeEnd)
    requires 0 <= kr <= |inp.rst| && (kr > 0 ==> inp.rst[kr - 1] < inp.ar[i - 1])
    requires nextRst == NextRst(inp.rst, kr, inp.timeEnd)
    requires j0 < |inp.r| && inp.r[j0] < nextTxn
    ensures stop ==> Walk(err, counting, order, records, dropped, orphans, j) == Drain(inp, counting0, order0, records0, dropped0, orphans0, j0, nextTxn, nextRst)
    ensures !stop ==> err.None? && j == j0 + 1 &&
                      Drain(inp, counting, order, records, dropped, orphans, j, nextTxn, nextRst) == Drain(inp, counting0, order0, records0, dropped0, orphans0, j0, nextTxn, nextRst)
    ensures err.None? ==> Inv(inp, counting, order, records, dropped, i, j) && OrphansOk(inp, orphans)
    ensures err.Some? ==> ErrorOk(inp, err.value)
  {
    if inp.r[j0] > nextRst {
      dropped := AtReset(inp, counting0, order0, records0, dropped0, i, j0);
      return true, None, map[], [], records0, dropped, orphans0, j0;
    }
    ResetFree(inp.rst, kr, inp.ar[i - 1], inp.r[j0]);
    var b;
    b, counting, records, j := TakeBeat(inp, counting0, order0, records0, dropped0, i, j0);
    DrainTakes(inp, counting0, order0, records0, dropped0, orphans0, j0, nextTxn, nextRst);
    order, dropped, orphans := order0, dropped0, orphans0;
    if b.Fail? {
      return true, Some(b.error), counting, order, records, dropped, orphans, j;
    }
    if b.Orphan? {
      OrphansAppend(inp, orphans, [b.at]);
      return true, None, counting, order, records, dropped, orphans + [b.at], j;
    }
    return false, None, counting, order, records, dropped, orphans, j;
  }

  /** A beat before the reset is taken, and the loop goes on from the next one unless it ended there. */
  lemma DrainTakes(inp: Inputs, counting: map<string, seq<Txn>>, order: seq<string>, records: seq<Record>,
                   dropped: seq<int>, orphans: seq<int>, j: int, nextTxn: int, nextRst: int)
    requires 0 <= j < |inp.r| && inp.r[j] < nextTxn && inp.r[j] <= nextRst
    ensures var b := OnBeat(inp, counting, records, j);
            Drain(inp, counting, order, records, dropped, orphans, j, nextTxn, nextRst) ==
            match b.0
            case Fail(e) => Walk(Some(e), b.1, order, b.2, dropped, orphans, j + 1)
            case Orphan(at) => Walk(None, b.1, order, b.2, dropped, orphans + [at], j + 1)
            case Taken => Drain(inp, b.1, order, b.2, dropped, orphans, j + 1, nextTxn, nextRst)
  {
  }

  /** How the analysis can stop before the AR events run out. */
  ghost predicate Stopped(inp: Inputs, o: Outcome)
  {
    (o.Failed? && ErrorOk(inp, o.error)) || (o.Hangs? && o.at in inp.ar && o.at > inp.timeEnd + 1)
  }

  /** One pass of `'transaction_loop`: move `next_rst` up to the AR time, push the transaction, drain. */
  method Round(inp: Inputs, counting0: map<string, seq<Txn>>, order0: seq<string>, records0: seq<Record>,
               dropped0: seq<int>, orphans0: seq<int>, i: int, j0: int, kr0: int)
    returns (stop: Option<Outcome>, counting: map<string, seq<Txn>>, order: seq<string>, records: seq<Record>,
             dropped: seq<int>, orphans: seq<int>, j: int, kr: int)
    requires Sorted(inp) && Inv(inp, counting0, order0, records0, dropped0, i, j0) && OrphansOk(inp, orphans0)
    requires ResetsBefore(inp.rst, inp.ar, kr0, i) && i < |inp.ar|
    ensures stop.None? ==> Inv(inp, counting, order, records, dropped, i + 1, j) && OrphansOk(inp, orphans) &&
                           ResetsBefore(inp.rst, inp.ar, kr, i + 1)
    ensures stop.None? ==> Rounds(inp, counting, order, records, dropped, orphans, i + 1, j, kr) ==
                           Rounds(inp, counting0, order0, records0, dropped0, orphans0, i, j0, kr0)
    ensures stop.Some? ==> Stopped(inp, stop.value) && stop.value == Rounds(inp, counting0, order0, records0, dropped0, orphans0, i, j0, kr0)
  {
    var time := inp.ar[i];
    assert time in inp.ar;
    assert i > 0 ==> inp.ar[i - 1] < time;
    var stuck;
    kr, stuck := AdvanceReset(inp.rst, inp.timeEnd, kr0, time);
    if stuck {
      return Some(Hangs(time)), counting0, order0, records0, dropped0, orphans0, j0, kr;
    }
    var idv := ArIdAt(inp, time);
    if idv.None? {
      return Some(Failed(ArIdInvalid(time))), counting0, order0, records0, dropped0, orphans0, j0, kr;
    }
    var t := OpenedAt(inp, i);
    counting, order := Enqueue(counting0, order0, idv.value, t).0, Enqueue(counting0, order0, idv.value, t).1;
    EnqueuePreserves(inp, counting0, order0, records0, dropped0, i, j0, idv.value, counting, order, i + 1);
    var err;
    err, counting, order, records, dropped, orphans, j :=
      DrainBeats(inp, counting, order, records0, dropped0, orphans0, i + 1, j0, t.next, NextRst(inp.rst, kr, inp.timeEnd), kr);
    if err.Some? {
      return Some(Failed(err.value)), counting, order, records, dropped, orphans, j, kr;
    }
    assert inp.ar[i] == time;
    return None, counting, order, records, dropped, orphans, j, kr;
  }

  lemma Initially(inp: Inputs)
    ensures Inv(inp, map[], [], [], [], 0, 0) && OrphansOk(inp, [])
  {
    assert inp.ar[..0] == [];
  }

  /** Once every AR is seen, the records and the unfinished list account for each AR once. */
  lemma Finish(inp: Inputs, counting: map<string, seq<Txn>>, order: seq<string>, records: seq<Record>,
               dropped: seq<int>, i: int, j: int, unfinished: seq<int>)
    requires Inv(inp, counting, order, records, dropped, i, j) && i == |inp.ar|
    requires unfinished == dropped + Pending(order, counting)
    ensures RecordsOk(inp, records) && RecordsOrdered(inp, records)
    ensures multiset(RecordStarts(records)) + multiset(unfinished) == multiset(inp.ar)
  {
    AllSeen(inp, counting, order, records, dropped, i);
    assert multiset(dropped + Pending(order, counting)) == multiset(dropped) + multiset(Pending(order, counting));
  }

  /**
   * `AXIRdAnalyzer::calculate_full` on one interval: the AR loop with its reset cursor. The
   * unfinished list holds what was in flight at each reset and at the end (the source lists a hash
   * map's queues, in no fixed order, so only the multiset is stated).
   */
  method Match(inp: Inputs) returns (o: Outcome)
    requires Sorted(inp)
    ensures o == Run(inp)
    ensures o.Done? ==> RecordsOk(inp, o.records) && RecordsOrdered(inp, o.records) && OrphansOk(inp, o.orphans)
    ensures o.Done? ==> multiset(RecordStarts(o.records)) + multiset(o.unfinished) == multiset(inp.ar)
    ensures !o.Done? ==> Stopped(inp, o)
  {
    var records: seq<Record> := [];
    var counting: map<string, seq<Txn>> := map[];
    var order: seq<string> := [];
    var dropped: seq<int> := [];
    var orphans: seq<int> := [];
    var i, j, kr := 0, 0, 0;
    Initially(inp);
    while i < |inp.ar|
      invariant Inv(inp, counting, order, records, dropped, i, j) && OrphansOk(inp, orphans)
      invariant ResetsBefore(inp.rst, inp.ar, kr, i)
      invariant Rounds(inp, counting, order, records, dropped, orphans, i, j, kr) == Run(inp)
    {
      var stop;
      stop, counting, order, records, dropped, orphans, j, kr := Round(inp, counting, order, records, dropped, orphans, i, j, kr);
      if stop.Some? {
        return stop.value;
      }
      i := i + 1;
    }
    var unfinished := dropped + Pending(order, counting);
    Finish(inp, counting, order, records, dropped, i, j, unfinished);
    return Done(records, unfinished, orphans);
  }

  /**
   * `calculate_full` with its signals: AR and R handshake indices, the reset events, the interval's
   * last index and the `arid`, `rid`, `rlast` and `rresp` signals.
   */
  method CalculateFull(ar: seq<int>, r: seq<int>, rst: seq<int>, lastTime: int,
                       arId: Trace<SignalValue>, rId: Trace<SignalValue>, rLast: Trace<SignalValue>, rResp: Trace<SignalValue>)
    returns (o: Outcome)
    requires StrictlyIncreasing(ar) && StrictlyIncreasing(r) && StrictlyIncreasing(rst)
    ensures o == Run(Inputs(ar, r, rst, lastTime, RustLookups(arId, rId, rLast, rResp)))
    // every record is an AR closed by an `rlast` beat carrying its ID, sampled one index before the
    // beat, with no reset between the latest AR before the beat and the beat; per ID in issue order
    ensures o.Done? ==> RecordsOk(Inputs(ar, r, rst, lastTime, RustLookups(arId, rId, rLast, rResp)), o.records)
    ensures o.Done? ==> RecordsOrdered(Inputs(ar, r, rst, lastTime, RustLookups(arId, rId, rLast, rResp)), o.records)
    // every AR is completed exactly once or reported unfinished
    ensures o.Done? ==> multiset(RecordStarts(o.records)) + multiset(o.unfinished) == multiset(ar)
    ensures o.Failed? ==> ErrorOk(Inputs(ar, r, rst, lastTime, RustLookups(arId, rId, rLast, rResp)), o.error)
    ensures o.Hangs? ==> o.at in ar && o.at > lastTime + 1
  {
    o := Match(Inputs(ar, r, rst, lastTime, RustLookups(arId, rId, rLast, rResp)));
  }

  /** Every beat of `inp.r[a..b]` flagged last closes a record or was reported as a read without AR. */
  ghost predicate Accounted(inp: Inputs, records: seq<Record>, orphans: seq<int>, a: int, b: int)
    requires 0 <= a <= b <= |inp.r|
  {
    forall k :: a <= k < b && LastAt(inp, inp.r[k]) == Some(true) ==> inp.r[k] in RespTimes(records) || inp.r[k] in orphans
  }

  lemma AccountedGrows(inp: Inputs, records: seq<Record>, orphans: seq<int>, records2: seq<Record>, orphans2: seq<int>, a: int, b: int)
    requires 0 <= a <= b <= |inp.r| && Accounted(inp, records, orphans, a, b)
    requires records <= records2 && orphans <= orphans2
    ensures Accounted(inp, records2, orphans2, a, b)
  {
    forall k | a <= k < b && LastAt(inp, inp.r[k]) == Some(true) && inp.r[k] in RespTimes(records)
      ensures inp.r[k] in RespTimes(records2)
    {
      var q :| 0 <= q < |records| && RespTimes(records)[q] == inp.r[k];
      assert records2[q] == records[q];
      assert RespTimes(records2)[q] == inp.r[k];
    }
    forall k | a <= k < b && inp.r[k] in orphans ensures inp.r[k] in orphans2 {
      var q :| 0 <= q < |orphans| && orphans[q] == inp.r[k];
      assert orphans2[q] == orphans[q];
    }
  }

  /** A taken beat flagged last closes a record at that beat. */
  lemma OnBeatAccounts(inp: Inputs, counting: map<string, seq<Txn>>, records: seq<Record>, j: int)
    requires 0 <= j < |inp.r|
    ensures var b := OnBeat(inp, counting, records, j);
            records <= b.2 && (b.0 == Taken && LastAt(inp, inp.r[j]) == Some(true) ==> inp.r[j] in RespTimes(b.2))
  {
    var b := OnBeat(inp, counting, records, j);
    if b.0 == Taken && LastAt(inp, inp.r[j]) == Some(true) {
      assert RespTimes(b.2)[|records|] == inp.r[j];
    }
  }

  /**
   * The R loop loses no last beat: each beat it takes that is flagged last closes a record or is
   * an orphan, and it stops only at the end of the beats, at the next AR, past the reset, or
   * right after an orphan.
   */
  lemma {:induction false} DrainAccounts(inp: Inputs, counting: map<string, seq<Txn>>, order: seq<string>, records: seq<Record>,
                                         dropped: seq<int>, orphans: seq<int>, j: int, nextTxn: int, nextRst: int)
    requires 0 <= j <= |inp.r|
    ensures var w := Drain(inp, counting, order, records, dropped, orphans, j, nextTxn, nextRst);
            w.err.None? ==> Accounted(inp, w.records, w.orphans, j, w.j) && records <= w.records && orphans <= w.orphans
    ensures var w := Drain(inp, counting, order, records, dropped, orphans, j, nextTxn, nextRst);
            w.err.None? ==> w.j == |inp.r| || inp.r[w.j] >= nextTxn || inp.r[w.j] > nextRst || (w.j > j && inp.r[w.j - 1] in w.orphans)
    decreases |inp.r| - j, 1
  {
    if j < |inp.r| && inp.r[j] < nextTxn && inp.r[j] <= nextRst {
      var b := OnBeat(inp, counting, records, j);
      if b.0 == Taken {
        DrainAccountsStep(inp, counting, order, records, dropped, orphans, j, nextTxn, nextRst);
      } else if b.0.Orphan? {
        OnBeatAccounts(inp, counting, records, j);
        assert (orphans + [inp.r[j]])[|orphans|] == inp.r[j];
      }
    }
  }

  /** What `DrainAccounts` states about one walk of the R loop from `j`. */
  ghost predicate DrainsFrom(inp: Inputs, w: Walk, records: seq<Record>, orphans: seq<int>, j: int, nextTxn: int, nextRst: int)
    requires 0 <= j <= w.j <= |inp.r|
  {
    w.err.None? ==>
      Accounted(inp, w.records, w.orphans, j, w.j) && records <= w.records && orphans <= w.orphans &&
      (w.j == |inp.r| || inp.r[w.j] >= nextTxn || inp.r[w.j] > nextRst || (w.j > j && inp.r[w.j - 1] in w.orphans))
  }

  /** `DrainAccounts` for a walk whose first R beat is taken. */
  lemma {:induction false} DrainAccountsStep(inp: Inputs, counting: map<string, seq<Txn>>, order: seq<string>, records: seq<Record>,
                                             dropped: seq<int>, orphans: seq<int>, j: int, nextTxn: int, nextRst: int)
    requires 0 <= j < |inp.r| && inp.r[j] < nextTxn && inp.r[j] <= nextRst && OnBeat(inp, counting, records, j).0 == Taken
    ensures DrainsFrom(inp, Drain(inp, counting, order, records, dropped, orphans, j, nextTxn, nextRst), records, orphans, j, nextTxn, nextRst)
    decreases |inp.r| - j, 0
  {
    var b := DrainTaken(inp, counting, order, records, dropped, orphans, j, nextTxn, nextRst);
    DrainAccounts(inp, b.1, order, b.2, dropped, orphans, j + 1, nextTxn, nextRst);
    DrainsJoin(inp, Drain(inp, b.1, order, b.2, dropped, orphans, j + 1, nextTxn, nextRst), records, orphans, b.2, orphans, j, nextTxn, nextRst);
  }

  /** A taken beat: the walk goes on from the next beat, with this one accounted for. */
  lemma DrainTaken(inp: Inputs, counting: map<string, seq<Txn>>, order: seq<string>, records: seq<Record>,
                   dropped: seq<int>, orphans: seq<int>, j: int, nextTxn: int, nextRst: int)
    returns (b: (Beat, map<string, seq<Txn>>, seq<Record>))
    requires 0 <= j < |inp.r| && inp.r[j] < nextTxn && inp.r[j] <= nextRst && OnBeat(inp, counting, records, j).0 == Taken
    ensures b == OnBeat(inp, counting, records, j)
    ensures Drain(inp, counting, order, records, dropped, orphans, j, nextTxn, nextRst) ==
            Drain(inp, b.1, order, b.2, dropped, orphans, j + 1, nextTxn, nextRst)
    ensures Accounted(inp, b.2, orphans, j, j + 1) && records <= b.2
  {
    b := OnBeat(inp, counting, records, j);
    OnBeatAccounts(inp, counting, records, j);
  }

  /** A walk from `j + 1` that accounts for its beats, after beat `j` is accounted for, accounts from `j`. */
  lemma DrainsJoin(inp: Inputs, w: Walk, records: seq<Record>, orphans: seq<int>, records1: seq<Record>, orphans1: seq<int>,
                   j: int, nextTxn: int, nextRst: int)
    requires 0 <= j && j + 1 <= w.j <= |inp.r|
    requires DrainsFrom(inp, w, records1, orphans1, j + 1, nextTxn, nextRst)
    requires Accounted(inp, records1, orphans1, j, j + 1) && records <= records1 && orphans <= orphans1
    ensures DrainsFrom(inp, w, records, orphans, j, nextTxn, nextRst)
  {
    if w.err.None? {
      AccountedGrows(inp, records1, orphans1, w.records, w.orphans, j, j + 1);
      AccountedJoin(inp, w.records, w.orphans, j, j + 1, w.j);
    }
  }

  /**
   * Where a run that is done may stop taking beats: all of them taken, no AR at all, the first one
   * left at or past the interval's end, past a reset at or after the last AR, or right after an orphan.
   */
  ghost predicate Cut(inp: Inputs, orphans: seq<int>, k: int)
    requires 0 <= k <= |inp.r|
  {
    k == |inp.r| || |inp.ar| == 0 || inp.r[k] >= inp.timeEnd ||
    (exists n :: 0 <= n < |inp.rst| && inp.ar[|inp.ar| - 1] <= inp.rst[n] < inp.r[k]) ||
    (k > 0 && inp.r[k - 1] in orphans)
  }

  lemma CutGrows(inp: Inputs, orphans: seq<int>, orphans2: seq<int>, k: int)
    requires 0 <= k <= |inp.r| && Cut(inp, orphans, k) && orphans <= orphans2
    ensures Cut(inp, orphans2, k)
  {
    if k > 0 && inp.r[k - 1] in orphans {
      var q :| 0 <= q < |orphans| && orphans[q] == inp.r[k - 1];
      assert orphans2[q] == orphans[q];
    }
  }

  /** A run that is done gets past AR `i`: its round neither hangs nor fails. */
  lemma RoundsDoneStep(inp: Inputs, counting: map<string, seq<Txn>>, order: seq<string>, records: seq<Record>,
                       dropped: seq<int>, orphans: seq<int>, i: int, j: int, kr: int) returns (a: (int, bool), w: Walk)
    requires 0 <= i < |inp.ar| && 0 <= j <= |inp.r| && 0 <= kr <= |inp.rst|
    requires Rounds(inp, counting, order, records, dropped, orphans, i, j, kr).Done?
    ensures a == Advanced(inp.rst, inp.timeEnd, kr, inp.ar[i]) && !a.1 && ArIdAt(inp, inp.ar[i]).Some?
    ensures var e := Enqueue(counting, order, ArIdAt(inp, inp.ar[i]).value, OpenedAt(inp, i));
            w == Drain(inp, e.0, e.1, records, dropped, orphans, j, OpenedAt(inp, i).next, NextRst(inp.rst, a.0, inp.timeEnd))
    ensures w.err.None? &&
            Rounds(inp, counting, order, records, dropped, orphans, i, j, kr) ==
            Rounds(inp, w.counting, w.order, w.records, w.dropped, w.orphans, i + 1, w.j, a.0)
  {
    a := Advanced(inp.rst, inp.timeEnd, kr, inp.ar[i]);
    var e := Enqueue(counting, order, ArIdAt(inp, inp.ar[i]).value, OpenedAt(inp, i));
    w := Drain(inp, e.0, e.1, records, dropped, orphans, j, OpenedAt(inp, i).next, NextRst(inp.rst, a.0, inp.timeEnd));
  }

  /** One AR's R loop in a run that is done: no last beat lost, and after the last AR the beats left start at a cut. */
  lemma RoundAccounts(inp: Inputs, counting: map<string, seq<Txn>>, order: seq<string>, records: seq<Record>,
                      dropped: seq<int>, orphans: seq<int>, i: int, j: int, kr: int, a: (int, bool), w: Walk)
    requires 0 <= i < |inp.ar| && 0 <= j <= |inp.r| && 0 <= kr <= |inp.rst|
    requires a == Advanced(inp.rst, inp.timeEnd, kr, inp.ar[i]) && !a.1 && ArIdAt(inp, inp.ar[i]).Some?
    requires var e := Enqueue(counting, order, ArIdAt(inp, inp.ar[i]).value, OpenedAt(inp, i));
             w == Drain(inp, e.0, e.1, records, dropped, orphans, j, OpenedAt(inp, i).next, NextRst(inp.rst, a.0, inp.timeEnd))
    requires w.err.None?
    ensures Accounted(inp, w.records, w.orphans, j, w.j) && records <= w.records && orphans <= w.orphans
    ensures i + 1 == |inp.ar| ==> Cut(inp, w.orphans, w.j)
  {
    var e := Enqueue(counting, order, ArIdAt(inp, inp.ar[i]).value, OpenedAt(inp, i));
    var nextRst := NextRst(inp.rst, a.0, inp.timeEnd);
    DrainAccounts(inp, e.0, e.1, records, dropped, orphans, j, OpenedAt(inp, i).next, nextRst);
    if i + 1 == |inp.ar| && w.j < |inp.r| && inp.r[w.j] < inp.timeEnd && !(w.j > j && inp.r[w.j - 1] in w.orphans) {
      assert inp.r[w.j] > nextRst;
      assert a.0 < |inp.rst| && inp.ar[|inp.ar| - 1] <= inp.rst[a.0] < inp.r[w.j];
    }
  }

  /** From R beat `j` on, the outcome `o` lost no last beat up to `k`, and `k` is a cut. */
  ghost predicate AccountsFrom(inp: Inputs, o: Outcome, records: seq<Record>, orphans: seq<int>, j: int, k: int)
    requires 0 <= j <= |inp.r|
  {
    o.Done? ==> j <= k <= |inp.r| && Accounted(inp, o.records, o.orphans, j, k) && Cut(inp, o.orphans, k) &&
                records <= o.records && orphans <= o.orphans
  }

  lemma AccountedJoin(inp: Inputs, records: seq<Record>, orphans: seq<int>, a: int, b: int, c: int)
    requires 0 <= a <= b <= c <= |inp.r| && Accounted(inp, records, orphans, a, b) && Accounted(inp, records, orphans, b, c)
    ensures Accounted(inp, records, orphans, a, c)
  {
  }

  /** An AR that lost no last beat between `j` and `w.j` extends what the rest of the run accounts for. */
  lemma AccountsBefore(inp: Inputs, o: Outcome, w: Walk, records: seq<Record>, orphans: seq<int>, j: int, k: int)
    requires 0 <= j <= w.j <= |inp.r| && Accounted(inp, w.records, w.orphans, j, w.j)
    requires records <= w.records && orphans <= w.orphans
    requires AccountsFrom(inp, o, w.records, w.orphans, w.j, k)
    ensures AccountsFrom(inp, o, records, orphans, j, k)
  {
    if o.Done? {
      AccountedGrows(inp, w.records, w.orphans, o.records, o.orphans, j, w.j);
      AccountedJoin(inp, o.records, o.orphans, j, w.j, k);
    }
  }

  lemma {:induction false} RoundsAccount(inp: Inputs, counting: map<string, seq<Txn>>, order: seq<string>, records: seq<Record>,
                                         dropped: seq<int>, orphans: seq<int>, i: int, j: int, kr: int) returns (k: int)
    requires 0 <= i <= |inp.ar| && 0 <= j <= |inp.r| && 0 <= kr <= |inp.rst|
    requires i == |inp.ar| ==> Cut(inp, orphans, j)
    ensures AccountsFrom(inp, Rounds(inp, counting, order, records, dropped, orphans, i, j, kr), records, orphans, j, k)
    decreases |inp.ar| - i, 1
  {
    k := j;
    if i < |inp.ar| && Rounds(inp, counting, order, records, dropped, orphans, i, j, kr).Done? {
      k := RoundsAccountStep(inp, counting, order, records, dropped, orphans, i, j, kr);
    }
  }

  /** One AR of a run that is done, followed by the rest of the run. */
  lemma {:induction false} RoundsAccountStep(inp: Inputs, counting: map<string, seq<Txn>>, order: seq<string>, records: seq<Record>,
                                             dropped: seq<int>, orphans: seq<int>, i: int, j: int, kr: int) returns (k: int)
    requires 0 <= i < |inp.ar| && 0 <= j <= |inp.r| && 0 <= kr <= |inp.rst|
    requires Rounds(inp, counting, order, records, dropped, orphans, i, j, kr).Done?
    ensures AccountsFrom(inp, Rounds(inp, counting, order, records, dropped, orphans, i, j, kr), records, orphans, j, k)
    decreases |inp.ar| - i, 0
  {
    var a, w := RoundsDoneStep(inp, counting, order, records, dropped, orphans, i, j, kr);
    RoundAccounts(inp, counting, order, records, dropped, orphans, i, j, kr, a, w);
    k := RoundsAccount(inp, w.counting, w.order, w.records, w.dropped, w.orphans, i + 1, w.j, a.0);
    AccountsBefore(inp, Rounds(inp, counting, order, records, dropped, orphans, i, j, kr), w, records, orphans, j, k);
  }

  /**
   * A run that is done loses no last beat: up to a cut, every R beat flagged last closes a record
   * or was reported as a read without AR, and every beat from the cut on lies at or past the
   * interval's end, past a reset that follows the last AR, or after an orphan that ended the last R loop.
   */
  lemma RunAccountsEveryLastBeat(inp: Inputs)
    ensures Run(inp).Done? ==> exists k :: 0 <= k <= |inp.r| && Accounted(inp, Run(inp).records, Run(inp).orphans, 0, k) &&
                                           Cut(inp, Run(inp).orphans, k)
  {
    var k := RoundsAccount(inp, map[], [], [], [], [], 0, 0, 0);
  }

  // ---------------------------------------------------------------- two runs the record predicate admits

  /** A beat flagged last whose ID has a head transaction closes it with the response. */
  lemma BeatCloses(inp: Inputs, counting: map<string, seq<Txn>>, records: seq<Record>, j: int, x: string, resp: string)
    requires 0 <= j < |inp.r| && x in counting && counting[x] != []
    requires RIdAt(inp, inp.r[j]) == Some(x) && LastAt(inp, inp.r[j]) == Some(true) && RespAt(inp, inp.r[j]) == Some(resp)
    ensures OnBeat(inp, counting, records, j) == (Taken, counting[x := counting[x][1..]], records + [Complete(counting[x][0], inp.r[j], resp)])
  {
  }

  /** Single-sample signals in effect from time 0: ID 0, `rlast` 1 and response 00. */
  function Constant(): Lookups
  {
    RustLookups([(0, Binary("0"))], [(0, Binary("0"))], [(0, Binary("1"))], [(0, Binary("00"))])
  }

  /** ARs at 10 and 15 under one ID, a reset at 12 and a single last beat at 20. */
  function AcrossReset(): Inputs
  {
    Inputs([10, 15], [20], [12], 30, Constant())
  }

  /**
   * The reset clears only what is in flight when the cursor is moved past it, at the next AR; a
   * transaction issued before a reset can still be completed by a beat after it.
   */
  lemma CompletesAcrossReset()
    ensures var inp := AcrossReset();
            inp.ar[0] < inp.rst[0] < inp.r[0] &&
            Run(inp) == Done([Record(10, 20, 20, 20, "00", 15)], [15], [])
  {
    var inp := AcrossReset();
    var t10, t15 := Txn(10, 15, None, None), Txn(15, 30, None, None);
    assert Advanced(inp.rst, 30, 0, 10) == (0, false);
    assert ArIdAt(inp, 10) == Some("0") && OpenedAt(inp, 0) == t10;
    EnqueueFirst("0", t10);
    var c1: map<string, seq<Txn>> := map["0" := [t10]];
    assert Drain(inp, c1, ["0"], [], [], [], 0, 15, 12) == Walk(None, c1, ["0"], [], [], [], 0);
    assert Advanced(inp.rst, 30, 1, 15) == (1, false);
    assert Advanced(inp.rst, 30, 0, 15) == (1, false);
    assert ArIdAt(inp, 15) == Some("0") && OpenedAt(inp, 1) == t15;
    EnqueueBehindOnly("0", [t10], t15);
    var c2: map<string, seq<Txn>> := map["0" := [t10] + [t15]];
    assert c2["0"][0] == t10 && c2["0"][1..] == [t15];
    assert RIdAt(inp, 20) == Some("0") && LastAt(inp, 20) == Some(true) && RespAt(inp, 20) == Some("00");
    BeatCloses(inp, c2, [], 0, "0", "00");
    var rec := Complete(t10, 20, "00");
    var c3 := c2["0" := [t15]];
    assert Drain(inp, c2, ["0"], [], [], [], 0, 30, 31) == Walk(None, c3, ["0"], [rec], [], [], 1);
    assert Pending(["0"], c3) == [15];
  }

  /** One AR at 10 and a last beat at 5, before it. */
  function BeatBeforeIssue(): Inputs
  {
    Inputs([10], [5], [], 30, Constant())
  }

  /** A transaction is recorded with a data beat that came before its issue. */
  lemma CompletesBeforeIssue()
    ensures var inp := BeatBeforeIssue();
            inp.r[0] < inp.ar[0] && Run(inp) == Done([Record(10, 5, 5, 5, "00", 30)], [], [])
  {
    var inp := BeatBeforeIssue();
    var t10 := Txn(10, 30, None, None);
    assert Advanced(inp.rst, 30, 0, 10) == (0, false);
    assert ArIdAt(inp, 10) == Some("0") && OpenedAt(inp, 0) == t10;
    EnqueueFirst("0", t10);
    var c1: map<string, seq<Txn>> := map["0" := [t10]];
    assert RIdAt(inp, 5) == Some("0") && LastAt(inp, 5) == Some(true) && RespAt(inp, 5) == Some("00");
    BeatCloses(inp, c1, [], 0, "0", "00");
    var rec := Complete(t10, 5, "00");
    var c2 := c1["0" := c1["0"][1..]];
    assert Drain(inp, c1, ["0"], [], [], [], 0, 30, 31) == Walk(None, c2, ["0"], [rec], [], [], 1);
    assert c2["0"] == [];
    assert Pending(["0"], c2) == [];
  }

  // ---------------------------------------------------------------- calculate_lite

  /** What `calculate_lite` works on: AR and R handshake indices, reset events, the last index, `rresp`. */
  datatype LiteInputs = LiteInputs(ar: seq<int>, r: seq<int>, rst: seq<int>, lastTime: int, rResp: Trace<SignalValue>)

  predicate LiteSorted(L: LiteInputs)
  {
    StrictlyIncreasing(L.ar) && StrictlyIncreasing(L.r) && StrictlyIncreasing(L.rst)
  }

  /**
   * A lite record: an AR answered by one R beat, which is its first and last data and its response
   * time, with no reset from the AR up to and including the beat, and the response in effect at the beat.
   */
  ghost predicate LiteRecordOk(L: LiteInputs, rec: Record)
  {
    Issued(L.ar, L.lastTime, rec.start, rec.next) &&
    rec.firstData == rec.respTime && rec.lastData == rec.respTime && rec.respTime in L.r &&
    NoneWithin(L.rst, rec.start, rec.respTime + 1) && BitsAt(L.rResp, rec.respTime) == Some(rec.resp)
  }

  /** Records come in AR order, answered by R beats in order. */
  ghost predicate LiteOrdered(rs: seq<Record>)
  {
    forall a, b :: 0 <= a < b < |rs| ==> rs[a].start < rs[b].start && rs[a].respTime < rs[b].respTime
  }

  /** The beat `o` came after a matched beat and before the AR following that match. */
  ghost predicate OrphanBetween(rs: seq<Record>, o: int)
  {
    exists n :: 0 <= n < |rs| && rs[n].respTime < o < rs[n].next
  }

  /** Every discarded beat came after a matched beat and before the AR following that match. */
  ghost predicate OrphansBetween(rs: seq<Record>, orphans: seq<int>)
  {
    forall k :: 0 <= k < |orphans| ==> OrphanBetween(rs, orphans[k])
  }

  ghost predicate LiteBefore(L: LiteInputs, rs: seq<Record>, i: int, j: int)
  {
    (|rs| > 0 ==> 0 < i <= |L.ar| && 0 < j <= |L.r|) &&
    forall n :: 0 <= n < |rs| ==> rs[n].start <= L.ar[i - 1] && rs[n].respTime <= L.r[j - 1]
  }

  /**
   * After `i` ARs and `j` R beats: the records are sound and ordered, each AR seen is recorded or
   * unfinished, and each R beat consumed answered an AR or was discarded.
   */
  ghost predicate LiteInv(L: LiteInputs, records: seq<Record>, unfinished: seq<int>, orphans: seq<int>, i: int, j: int)
  {
    0 <= i <= |L.ar| && 0 <= j <= |L.r| &&
    (forall n :: 0 <= n < |records| ==> LiteRecordOk(L, records[n])) &&
    LiteBefore(L, records, i, j) && LiteOrdered(records) && OrphansBetween(records, orphans) &&
    multiset(RecordStarts(records)) + multiset(unfinished) == multiset(L.ar[..i]) &&
    multiset(RespTimes(records)) + multiset(orphans) == multiset(L.r[..j])
  }

  /** The first position from `j` on whose beat is at or after `t` (the length of `r` if there is none). */
  function FirstFrom(r: seq<int>, j: int, t: int): (k: int)
    requires 0 <= j <= |r|
    ensures j <= k <= |r| && (k < |r| ==> r[k] >= t) && forall m :: j <= m < k ==> r[m] < t
    decreases |r| - j
  {
    if j == |r| || r[j] >= t then j else FirstFrom(r, j + 1, t)
  }

  /**
   * `calculate_lite` from AR `i`, with the R cursor at `j` and the reset cursor at `kr`: an AR takes
   * the next R beat when that beat comes before the next reset, discarding the beats after it up to
   * the next AR; otherwise it is reported unfinished.
   */
  function LiteRounds(L: LiteInputs, records: seq<Record>, unfinished: seq<int>, orphans: seq<int>, i: int, j: int, kr: int): Outcome
    requires 0 <= i <= |L.ar| && 0 <= j <= |L.r| && 0 <= kr <= |L.rst|
    decreases |L.ar| - i
  {
    if i == |L.ar| then Done(records, unfinished, orphans)
    else
      var time := L.ar[i];
      var a := Advanced(L.rst, L.lastTime, kr, time);
      if a.1 then Hangs(time)
      else if j < |L.r| && NextRst(L.rst, a.0, L.lastTime) > L.r[j] then
        var nextTxn := PeekAfter(L.ar, i, L.lastTime);
        var j2 := FirstFrom(L.r, j + 1, nextTxn);
        match BitsAt(L.rResp, L.r[j])
        case None => Failed(RRespInvalid(L.r[j]))
        case Some(resp) =>
          LiteRounds(L, records + [Record(time, L.r[j], L.r[j], L.r[j], resp, nextTxn)], unfinished, orphans + L.r[j + 1..j2], i + 1, j2, a.0)
      else LiteRounds(L, records, unfinished + [time], orphans, i + 1, j, a.0)
  }

  /** `calculate_lite` on one interval. */
  function LiteRun(L: LiteInputs): Outcome
  {
    LiteRounds(L, [], [], [], 0, 0, 0)
  }

  /** One AR at 10 and one R beat at 5, before it. */
  function LiteBeatBeforeIssue(): LiteInputs
  {
    LiteInputs([10], [5], [], 30, [(0, Binary("00"))])
  }

  /** A lite AR is answered by the next R beat even when that beat came before the AR. */
  lemma LiteAnswersBeforeIssue()
    ensures var L := LiteBeatBeforeIssue();
            L.r[0] < L.ar[0] && LiteRun(L) == Done([Record(10, 5, 5, 5, "00", 30)], [], [])
  {
    var L := LiteBeatBeforeIssue();
    assert Advanced(L.rst, 30, 0, 10) == (0, false);
    assert FirstFrom(L.r, 1, 30) == 1 && L.r[1..1] == [];
    assert BitsAt(L.rResp, 5) == Some("00");
  }

  /** `while let Some(&n) = r.peek() && n < next_transaction`: every R beat before the next AR is discarded. */
  method DiscardOrphans(r: seq<int>, j0: int, nextTxn: int, orphans0: seq<int>) returns (j: int, orphans: seq<int>)
    requires 0 <= j0 <= |r|
    ensures j0 <= j <= |r| && (j < |r| ==> r[j] >= nextTxn)
    ensures orphans == orphans0 + r[j0..j]
    ensures forall k :: j0 <= k < j ==> r[k] < nextTxn
    ensures j == FirstFrom(r, j0, nextTxn)
  {
    j, orphans := j0, orphans0;
    while j < |r| && r[j] < nextTxn
      invariant j0 <= j <= |r| && orphans == orphans0 + r[j0..j]
      invariant forall k :: j0 <= k < j ==> r[k] < nextTxn
      invariant FirstFrom(r, j, nextTxn) == FirstFrom(r, j0, nextTxn)
    {
      assert r[j0..j + 1] == r[j0..j] + [r[j]];
      orphans := orphans + [r[j]];
      j := j + 1;
    }
  }

  lemma LiteMatchRecords(L: LiteInputs, records: seq<Record>, i: int, j: int, rec: Record, j2: int)
    requires LiteSorted(L) && 0 <= i < |L.ar| && 0 <= j < j2 <= |L.r|
    requires (forall n :: 0 <= n < |records| ==> LiteRecordOk(L, records[n])) && LiteBefore(L, records, i, j) && LiteOrdered(records)
    requires rec.start == L.ar[i] && rec.respTime == L.r[j] && rec.next == PeekAfter(L.ar, i, L.lastTime) && LiteRecordOk(L, rec)
    ensures var rs := records + [rec];
            (forall n :: 0 <= n < |rs| ==> LiteRecordOk(L, rs[n])) && LiteBefore(L, rs, i + 1, j2) && LiteOrdered(rs)
  {
    var rs := records + [rec];
    forall n | 0 <= n < |records| ensures records[n].start < rec.start && records[n].respTime < rec.respTime {
      assert L.ar[i - 1] < L.ar[i] && L.r[j - 1] < L.r[j];
    }
    assert L.r[j] <= L.r[j2 - 1];
  }

  lemma LiteMatchOrphans(L: LiteInputs, records: seq<Record>, orphans: seq<int>, j: int, rec: Record, j2: int, orphans2: seq<int>)
    requires OrphansBetween(records, orphans) && 0 <= j < j2 <= |L.r| && StrictlyIncreasing(L.r)
    requires rec.respTime == L.r[j] && orphans2 == orphans + L.r[j + 1..j2]
    requires forall k :: j + 1 <= k < j2 ==> L.r[k] < rec.next
    ensures OrphansBetween(records + [rec], orphans2)
  {
    var rs := records + [rec];
    forall k | 0 <= k < |orphans2| ensures OrphanBetween(rs, orphans2[k]) {
      if k < |orphans| {
        var n :| 0 <= n < |records| && records[n].respTime < orphans[k] < records[n].next;
        assert rs[n] == records[n] && orphans2[k] == orphans[k];
      } else {
        var m := j + 1 + (k - |orphans|);
        assert orphans2[k] == L.r[m];
        assert L.r[j] < L.r[m] < rec.next;
        assert rs[|records|] == rec;
      }
    }
  }

  lemma LiteMatchCounts(L: LiteInputs, records: seq<Record>, unfinished: seq<int>, orphans: seq<int>, i: int, j: int,
                        rec: Record, j2: int, orphans2: seq<int>)
    requires 0 <= i < |L.ar| && 0 <= j < j2 <= |L.r| && rec.start == L.ar[i] && rec.respTime == L.r[j]
    requires orphans2 == orphans + L.r[j + 1..j2]
    requires multiset(RecordStarts(records)) + multiset(unfinished) == multiset(L.ar[..i])
    requires multiset(RespTimes(records)) + multiset(orphans) == multiset(L.r[..j])
    ensures multiset(RecordStarts(records + [rec])) + multiset(unfinished) == multiset(L.ar[..i + 1])
    ensures multiset(RespTimes(records + [rec])) + multiset(orphans2) == multiset(L.r[..j2])
  {
    RecordStartsSnoc(records, rec);
    PrefixSnoc(L.ar, i);
    MultisetAdd(multiset(unfinished), multiset(RecordStarts(records)), multiset(RecordStarts(records + [rec])),
                multiset(L.ar[..i]), multiset(L.ar[..i + 1]), rec.start);
    RespTimesSnoc(records, rec);
    PrefixSnoc(L.r, j);
    PrefixSplit(L.r, j + 1, j2);
    MultisetAddBoth(multiset(RespTimes(records)), multiset(orphans), multiset(L.r[..j]), L.r[j], multiset(L.r[j + 1..j2]));
  }

  lemma PrefixSplit(s: seq<int>, m: int, n: int)
    requires 0 <= m <= n <= |s|
    ensures multiset(s[..n]) == multiset(s[..m]) + multiset(s[m..n])
  {
    assert s[..n] == s[..m] + s[m..n];
  }

  lemma MultisetAddBoth(a: multiset<int>, b: multiset<int>, m: multiset<int>, x: int, c: multiset<int>)
    requires a + b == m
    ensures (a + multiset{x}) + (b + c) == (m + multiset{x}) + c
  {
  }

  /** An AR answered by the beat `L.r[j]`, after which the beats before the next AR up to `j2` are discarded. */
  lemma LiteMatchPreserves(L: LiteInputs, records: seq<Record>, unfinished: seq<int>, orphans: seq<int>, i: int, j: int,
                           rec: Record, j2: int, orphans2: seq<int>)
    requires LiteSorted(L) && LiteInv(L, records, unfinished, orphans, i, j) && i < |L.ar| && j < j2 <= |L.r|
    requires rec.start == L.ar[i] && rec.respTime == L.r[j] && rec.next == PeekAfter(L.ar, i, L.lastTime) && LiteRecordOk(L, rec)
    requires orphans2 == orphans + L.r[j + 1..j2] && forall k :: j + 1 <= k < j2 ==> L.r[k] < rec.next
    ensures LiteInv(L, records + [rec], unfinished, orphans2, i + 1, j2)
  {
    LiteMatchRecords(L, records, i, j, rec, j2);
    LiteMatchOrphans(L, records, orphans, j, rec, j2, orphans2);
    LiteMatchCounts(L, records, unfinished, orphans, i, j, rec, j2, orphans2);
  }

  /** An AR with no beat to answer it before the reset is reported unfinished. */
  lemma LiteSkipPreserves(L: LiteInputs, records: seq<Record>, unfinished: seq<int>, orphans: seq<int>, i: int, j: int)
    requires LiteSorted(L) && LiteInv(L, records, unfinished, orphans, i, j) && i < |L.ar|
    ensures LiteInv(L, records, unfinished + [L.ar[i]], orphans, i + 1, j)
  {
    PrefixSnoc(L.ar, i);
    assert multiset(unfinished + [L.ar[i]]) == multiset(unfinished) + multiset{L.ar[i]};
    MultisetAdd(multiset(RecordStarts(records)), multiset(unfinished), multiset(unfinished + [L.ar[i]]),
                multiset(L.ar[..i]), multiset(L.ar[..i + 1]), L.ar[i]);
    LiteBeforeLater(L, records, i, j);
  }

  lemma LiteBeforeLater(L: LiteInputs, records: seq<Record>, i: int, j: int)
    requires LiteSorted(L) && LiteBefore(L, records, i, j) && 0 <= i < |L.ar|
    ensures LiteBefore(L, records, i + 1, j)
  {
    if |records| > 0 { assert L.ar[i - 1] < L.ar[i]; }
  }

  /** How `calculate_lite` can stop before the ARs run out. */
  ghost predicate LiteStopped(L: LiteInputs, o: Outcome)
  {
    (o.Failed? && o.error.RRespInvalid? && o.error.at in L.r && BitsAt(L.rResp, o.error.at).None?) ||
    (o.Hangs? && o.at in L.ar && o.at > L.lastTime + 1)
  }

  /** One AR of `calculate_lite`: answered by the next R beat when it comes before the reset, else unfinished. */
  method LiteRound(L: LiteInputs, records0: seq<Record>, unfinished0: seq<int>, orphans0: seq<int>, i: int, j0: int, kr0: int)
    returns (stop: Option<Outcome>, records: seq<Record>, unfinished: seq<int>, orphans: seq<int>, j: int, kr: int)
    requires LiteSorted(L) && LiteInv(L, records0, unfinished0, orphans0, i, j0)
    requires ResetsBefore(L.rst, L.ar, kr0, i) && i < |L.ar|
    ensures stop.None? ==> LiteInv(L, records, unfinished, orphans, i + 1, j) && ResetsBefore(L.rst, L.ar, kr, i + 1)
    // the AR is answered exactly when the next R beat comes before the next reset, and then by that beat
    ensures stop.None? ==> kr == Advanced(L.rst, L.lastTime, kr0, L.ar[i]).0
    ensures stop.None? ==> (|records| == |records0| + 1 <==> j0 < |L.r| && L.r[j0] < NextRst(L.rst, kr, L.lastTime))
    ensures stop.None? && |records| == |records0| + 1 ==>
              unfinished == unfinished0 && records[..|records0|] == records0 &&
              records[|records0|].start == L.ar[i] && records[|records0|].respTime == L.r[j0] &&
              j == FirstFrom(L.r, j0 + 1, PeekAfter(L.ar, i, L.lastTime)) && orphans == orphans0 + L.r[j0 + 1..j]
    ensures stop.None? && |records| != |records0| + 1 ==>
              records == records0 && unfinished == unfinished0 + [L.ar[i]] && orphans == orphans0 && j == j0
    ensures stop.None? ==> LiteRounds(L, records, unfinished, orphans, i + 1, j, kr) == LiteRounds(L, records0, unfinished0, orphans0, i, j0, kr0)
    ensures stop.Some? ==> LiteStopped(L, stop.value) && stop.value == LiteRounds(L, records0, unfinished0, orphans0, i, j0, kr0)
  {
    var time := L.ar[i];
    assert time in L.ar;
    assert i > 0 ==> L.ar[i - 1] < time;
    var stuck;
    kr, stuck := AdvanceReset(L.rst, L.lastTime, kr0, time);
    if stuck {
      return Some(Hangs(time)), records0, unfinished0, orphans0, j0, kr;
    }
    if j0 < |L.r| && NextRst(L.rst, kr, L.lastTime) > L.r[j0] {
      var err;
      err, records, orphans, j := LiteTake(L, records0, unfinished0, orphans0, i, j0, kr0, kr);
      if err.Some? {
        return Some(Failed(err.value)), records0, unfinished0, orphans, j, kr;
      }
      unfinished := unfinished0;
    } else {
      LiteSkipPreserves(L, records0, unfinished0, orphans0, i, j0);
      records, unfinished, orphans, j := records0, unfinished0 + [time], orphans0, j0;
    }
    assert L.ar[i] == time;
    stop := None;
  }

  /** An AR that takes the R beat `L.r[j]`: the analysis fails on its response or goes on from the next AR. */
  lemma LiteRoundsTake(L: LiteInputs, records: seq<Record>, unfinished: seq<int>, orphans: seq<int>, i: int, j: int,
                       kr0: int, kr: int)
    requires 0 <= i < |L.ar| && 0 <= j < |L.r| && 0 <= kr0 <= |L.rst|
    requires Advanced(L.rst, L.lastTime, kr0, L.ar[i]) == (kr, false) && NextRst(L.rst, kr, L.lastTime) > L.r[j]
    ensures BitsAt(L.rResp, L.r[j]).None? ==> LiteRounds(L, records, unfinished, orphans, i, j, kr0) == Failed(RRespInvalid(L.r[j]))
    ensures BitsAt(L.rResp, L.r[j]).Some? ==>
              var nextTxn := PeekAfter(L.ar, i, L.lastTime);
              var j2 := FirstFrom(L.r, j + 1, nextTxn);
              LiteRounds(L, records, unfinished, orphans, i, j, kr0) ==
              LiteRounds(L, records + [Record(L.ar[i], L.r[j], L.r[j], L.r[j], BitsAt(L.rResp, L.r[j]).value, nextTxn)],
                         unfinished, orphans + L.r[j + 1..j2], i + 1, j2, kr)
  {
  }

  /**
   * The AR `L.ar[i]` takes the R beat `L.r[j0]`, which comes before the next reset; the beats after
   * it and before the next AR are orphans, and the response is the one sampled at the beat.
   */
  method LiteTake(L: LiteInputs, records0: seq<Record>, unfinished: seq<int>, orphans0: seq<int>, i: int, j0: int,
                  ghost kr0: int, kr: int)
    returns (err: Option<RdError>, records: seq<Record>, orphans: seq<int>, j: int)
    requires LiteSorted(L) && LiteInv(L, records0, unfinished, orphans0, i, j0) && i < |L.ar| && j0 < |L.r|
    requires 0 <= kr0 <= |L.rst| && Advanced(L.rst, L.lastTime, kr0, L.ar[i]) == (kr, false)
    requires kr > 0 ==> L.rst[kr - 1] < L.ar[i]
    requires NextRst(L.rst, kr, L.lastTime) > L.r[j0]
    ensures err.None? ==> LiteInv(L, records, unfinished, orphans, i + 1, j)
    ensures err.None? ==>
              |records| == |records0| + 1 && records[..|records0|] == records0 &&
              records[|records0|].start == L.ar[i] && records[|records0|].respTime == L.r[j0] &&
              j == FirstFrom(L.r, j0 + 1, PeekAfter(L.ar, i, L.lastTime)) && orphans == orphans0 + L.r[j0 + 1..j]
    ensures err.None? ==> LiteRounds(L, records, unfinished, orphans, i + 1, j, kr) == LiteRounds(L, records0, unfinished, orphans0, i, j0, kr0)
    ensures err.Some? ==> LiteStopped(L, Failed(err.value)) && Failed(err.value) == LiteRounds(L, records0, unfinished, orphans0, i, j0, kr0)
  {
    var readTime := L.r[j0];
    var nextTxn := PeekAfter(L.ar, i, L.lastTime);
    j, orphans := DiscardOrphans(L.r, j0 + 1, nextTxn, orphans0);
    LiteRoundsTake(L, records0, unfinished, orphans0, i, j0, kr0, kr);
    var resp := BitsAt(L.rResp, readTime);
    if resp.None? {
      assert readTime in L.r;
      return Some(RRespInvalid(readTime)), records0, orphans, j;
    }
    var rec := Record(L.ar[i], readTime, readTime, readTime, resp.value, nextTxn);
    ResetFree(L.rst, kr, L.ar[i], readTime + 1);
    LiteMatchPreserves(L, records0, unfinished, orphans0, i, j0, rec, j, orphans);
    err, records := None, records0 + [rec];
  }

  lemma LiteInitially(L: LiteInputs)
    ensures LiteInv(L, [], [], [], 0, 0)
  {
    assert L.ar[..0] == [] && L.r[..0] == [];
  }

  lemma LiteFinish(L: LiteInputs, records: seq<Record>, unfinished: seq<int>, orphans: seq<int>, i: int, j: int)
    requires LiteInv(L, records, unfinished, orphans, i, j) && i == |L.ar|
    ensures multiset(RecordStarts(records)) + multiset(unfinished) == multiset(L.ar)
    ensures exists n :: 0 <= n <= |L.r| && multiset(RespTimes(records)) + multiset(orphans) == multiset(L.r[..n])
  {
    assert L.ar[..i] == L.ar;
  }

  /**
   * `AXIRdAnalyzer::calculate_lite` on one interval: at most one record per AR, in AR order; every AR
   * is recorded or reported unfinished; every R beat consumed answered an AR or was discarded as a
   * read without AR between the answering beat and the next AR.
   */
  method CalculateLite(L: LiteInputs) returns (o: Outcome)
    requires LiteSorted(L)
    ensures o == LiteRun(L)
    ensures o.Done? ==> (forall n :: 0 <= n < |o.records| ==> LiteRecordOk(L, o.records[n])) && LiteOrdered(o.records)
    ensures o.Done? ==> multiset(RecordStarts(o.records)) + multiset(o.unfinished) == multiset(L.ar)
    ensures o.Done? ==> OrphansBetween(o.records, o.orphans) &&
                        exists n :: 0 <= n <= |L.r| && multiset(RespTimes(o.records)) + multiset(o.orphans) == multiset(L.r[..n])
    ensures !o.Done? ==> LiteStopped(L, o)
  {
    var records: seq<Record> := [];
    var unfinished: seq<int> := [];
    var orphans: seq<int> := [];
    var i, j, kr := 0, 0, 0;
    LiteInitially(L);
    while i < |L.ar|
      invariant LiteInv(L, records, unfinished, orphans, i, j)
      invariant ResetsBefore(L.rst, L.ar, kr, i)
      invariant LiteRounds(L, records, unfinished, orphans, i, j, kr) == LiteRun(L)
    {
      var stop;
      stop, records, unfinished, orphans, j, kr := LiteRound(L, records, unfinished, orphans, i, j, kr);
      if stop.Some? {
        return stop.value;
      }
      i := i + 1;
    }
    LiteFinish(L, records, unfinished, orphans, i, j);
    return Done(records, unfinished, orphans);
  }
}
