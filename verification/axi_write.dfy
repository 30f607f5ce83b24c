// The write side of the Rust AXI analyzer (src/analyze/analyzer/axi_analyzer.rs): `calculate_full`,
// which fills each AW's transaction with W beats up to `wlast` and then matches B responses per ID,
// and `calculate_lite`, which pairs each AW with the next W and B beats. Times are time-table indices.
module AxiWrite {
  import opened Wrappers
  import opened Traces
  import opened Bus
  import opened AxiSampling
  import opened Resets
  import opened Inflight
  import RM = ReadMatching

  /** The `Err` values the write analysis returns. */
  datatype WrError =
    | AwIdInvalid(at: int)
    | WLastInvalid(at: int)
    | BIdInvalid(at: int)
    | BRespInvalid(at: int)
    | NoLastData(start: int, next: int)

  /** The end of an analysis: the records and warnings, an `Err`, or a reset loop that never ends. */
  datatype Outcome =
    | Done(records: seq<Record>, unfinished: seq<int>, orphans: seq<int>)
    | Failed(error: WrError)
    | Hangs(at: int)

  /**
   * What `calculate_full` works on: AW, W and B handshake indices, reset events, the interval's last
   * index, and the `awid`, `wlast`, `bid` and `bresp` signals.
   */
  datatype WInputs = WInputs(aw: seq<int>, w: seq<int>, b: seq<int>, rst: seq<int>, lastTime: int,
                             awId: Trace<SignalValue>, wLast: Trace<SignalValue>, bId: Trace<SignalValue>,
                             bResp: Trace<SignalValue>)

  predicate Sorted(inp: WInputs)
  {
    StrictlyIncreasing(inp.aw) && StrictlyIncreasing(inp.w) && StrictlyIncreasing(inp.b) && StrictlyIncreasing(inp.rst)
  }

  function AwIdAt(inp: WInputs, t: int): Option<string>
  {
    GetIdValue(inp.awId, t)
  }

  function BIdAt(inp: WInputs, t: int): Option<string>
  {
    GetIdValue(inp.bId, t)
  }

  function BRespAt(inp: WInputs, t: int): Option<string>
  {
    GetIdValue(inp.bResp, t)
  }

  /** Whether the W beat at `t` is the last of its burst (`None` when `wlast` is not a single bit there). */
  function WLastAt(inp: WInputs, t: int): Option<bool>
  {
    match GetLogicValue(inp.wLast, t)
    case None => None
    case Some(v) => Some(v == V1)
  }

  /** The data beats a transaction has collected: a last beat only after a first one, and flagged by `wlast`. */
  ghost predicate DataOk(inp: WInputs, t: Txn)
  {
    (t.firstData.Some? ==> t.firstData.value in inp.w) &&
    (t.lastData.Some? ==> t.firstData.Some? && t.lastData.value in inp.w && t.firstData.value <= t.lastData.value &&
                          WLastAt(inp, t.lastData.value) == Some(true))
  }

  /** A transaction queued under `x` after `i` AW events. */
  ghost predicate TxnOk(inp: WInputs, x: string, t: Txn, i: int)
  {
    AwIdAt(inp, t.start) == Some(x) && RM.Issued(inp.aw, inp.lastTime, t.start, t.next) &&
    0 < i <= |inp.aw| && t.start <= inp.aw[i - 1] && DataOk(inp, t)
  }

  ghost predicate QueuesOk(inp: WInputs, counting: map<string, seq<Txn>>, i: int)
  {
    forall x :: x in counting ==>
      (forall a :: 0 <= a < |counting[x]| ==> TxnOk(inp, x, counting[x][a], i)) && StartsIncreasing(counting[x])
  }

  /**
   * What every emitted record satisfies: an AW answered by a B beat carrying its ID; some AW at or
   * after it, the latest one before the response, has no reset between it and the response (a reset
   * between the issue and that AW is not excluded); its data beats end with `wlast`.
   */
  ghost predicate RecordOk(inp: WInputs, rec: Record)
  {
    RM.Issued(inp.aw, inp.lastTime, rec.start, rec.next) &&
    AwIdAt(inp, rec.start).Some? && BIdAt(inp, rec.respTime) == AwIdAt(inp, rec.start) &&
    rec.respTime in inp.b && BRespAt(inp, rec.respTime) == Some(rec.resp) &&
    rec.firstData in inp.w && rec.lastData in inp.w && rec.firstData <= rec.lastData &&
    WLastAt(inp, rec.lastData) == Some(true) &&
    (exists k :: 0 <= k < |inp.aw| && rec.start <= inp.aw[k] && rec.respTime < PeekAfter(inp.aw, k, inp.lastTime) &&
       NoneWithin(inp.rst, inp.aw[k], rec.respTime))
  }

  ghost predicate RecordsOk(inp: WInputs, records: seq<Record>)
  {
    forall n :: 0 <= n < |records| ==> RecordOk(inp, records[n])
  }

  ghost predicate RecordsBefore(inp: WInputs, records: seq<Record>, i: int, jb: int)
  {
    (|records| > 0 ==> 0 < i <= |inp.aw| && 0 < jb <= |inp.b|) &&
    forall n :: 0 <= n < |records| ==> records[n].start <= inp.aw[i - 1] && records[n].respTime <= inp.b[jb - 1]
  }

  /** Per ID, completions in issue order; overall, in the order of their responses. */
  ghost predicate RecordsOrdered(inp: WInputs, records: seq<Record>)
  {
    (forall a, b :: 0 <= a < b < |records| && AwIdAt(inp, records[a].start) == AwIdAt(inp, records[b].start) ==>
       records[a].start < records[b].start) &&
    (forall a, b :: 0 <= a < b < |records| ==> records[a].respTime < records[b].respTime)
  }

  /** A completed transaction was issued before everything still queued under its ID. */
  ghost predicate Behind(inp: WInputs, records: seq<Record>, counting: map<string, seq<Txn>>)
  {
    forall n, x, a :: (0 <= n < |records| && x in counting && 0 <= a < |counting[x]| &&
      AwIdAt(inp, records[n].start) == Some(x)) ==> records[n].start < counting[x][a].start
  }

  /** Every AW seen so far is completed, dropped at a reset, or pending, exactly once. */
  ghost predicate Conserved(inp: WInputs, order: seq<string>, counting: map<string, seq<Txn>>, records: seq<Record>,
                            dropped: seq<int>, i: int)
  {
    0 <= i <= |inp.aw| &&
    multiset(RecordStarts(records)) + multiset(dropped) + multiset(Pending(order, counting)) == multiset(inp.aw[..i])
  }

  /** Every B beat consumed so far answered a record or was reported as a response without command. */
  ghost predicate Answered(inp: WInputs, records: seq<Record>, orphans: seq<int>, jb: int)
  {
    0 <= jb <= |inp.b| && multiset(RespTimes(records)) + multiset(orphans) == multiset(inp.b[..jb])
  }

  /** Every response without command names a B beat whose ID could be read. */
  ghost predicate OrphansOk(inp: WInputs, orphans: seq<int>)
  {
    forall k :: 0 <= k < |orphans| ==> orphans[k] in inp.b && BIdAt(inp, orphans[k]).Some?
  }

  /** The engine's invariant after `i` AW events and `jb` B beats. */
  ghost predicate Inv(inp: WInputs, counting: map<string, seq<Txn>>, order: seq<string>, records: seq<Record>,
                      dropped: seq<int>, orphans: seq<int>, i: int, jb: int)
  {
    0 <= i <= |inp.aw| && 0 <= jb <= |inp.b| && Keys(counting, order) && QueuesOk(inp, counting, i) &&
    RecordsOk(inp, records) && RecordsBefore(inp, records, i, jb) && RecordsOrdered(inp, records) &&
    Behind(inp, records, counting) && Conserved(inp, order, counting, records, dropped, i) &&
    Answered(inp, records, orphans, jb) && OrphansOk(inp, orphans)
  }

  /** Each error names the event whose sampled attribute is missing, or the transaction that lacked `wlast`. */
  ghost predicate ErrorOk(inp: WInputs, e: WrError)
  {
    match e
    case AwIdInvalid(at) => at in inp.aw && AwIdAt(inp, at).None?
    case WLastInvalid(at) => at in inp.w && WLastAt(inp, at).None?
    case BIdInvalid(at) => at in inp.b && BIdAt(inp, at).None?
    case BRespInvalid(at) => at in inp.b && BIdAt(inp, at).Some? && BRespAt(inp, at).None?
    case NoLastData(start, next) =>
      RM.Issued(inp.aw, inp.lastTime, start, next) && AwIdAt(inp, start).Some? &&
      exists at :: at in inp.b && BIdAt(inp, at) == AwIdAt(inp, start)
  }

  // ---------------------------------------------------------------- the W loop

  /** How the W loop for one AW ended. */
  datatype DataEnd = DataDone | DataReset | DataFail(error: WrError)

  /**
   * The W loop from beat `jw` for the transaction `t`: a beat after the reset `nextRst` ends it
   * unconsumed; any other beat is consumed, becomes the first data when there is none yet, and ends
   * the loop as the last data when `wlast` is 1, or with an error when `wlast` cannot be read.
   */
  function Fill(inp: WInputs, t: Txn, jw: int, nextRst: int): (d: (DataEnd, Txn, int))
    requires 0 <= jw <= |inp.w|
    ensures jw <= d.2 <= |inp.w| && d.1.start == t.start && d.1.next == t.next
    ensures d.0.DataReset? ==> d.2 < |inp.w| && inp.w[d.2] > nextRst
    ensures d.0.DataFail? ==> jw < d.2 && d.0.error == WLastInvalid(inp.w[d.2 - 1]) && WLastAt(inp, inp.w[d.2 - 1]).None?
    decreases |inp.w| - jw
  {
    if jw == |inp.w| then (DataDone, t, jw)
    else if inp.w[jw] > nextRst then (DataReset, t, jw)
    else
      var write := inp.w[jw];
      var t1 := if t.firstData.None? then t.(firstData := Some(write)) else t;
      match WLastAt(inp, write)
      case None => (DataFail(WLastInvalid(write)), t1, jw + 1)
      case Some(last) => if last then (DataDone, t1.(lastData := Some(write)), jw + 1) else Fill(inp, t1, jw + 1, nextRst)
  }

  /**
   * The W loop of `calculate_full`: the newest transaction takes the W beats from `jw0` on, whatever
   * their time, the first as its first data, until a beat with `wlast` at 1 (its last data); a beat
   * after the reset `nextRst` is left unconsumed and ends the loop.
   */
  /** What the W loop from `jw0` guarantees about the beats it takes and the transaction it fills. */
  lemma {:induction false} FillFacts(inp: WInputs, t0: Txn, jw0: int, nextRst: int)
    requires 0 <= jw0 <= |inp.w| && t0.lastData.None?
    ensures var d := Fill(inp, t0, jw0, nextRst);
            d.1.firstData == (if t0.firstData.Some? then t0.firstData else if jw0 < d.2 then Some(inp.w[jw0]) else None)
    ensures var d := Fill(inp, t0, jw0, nextRst);
            (forall k :: jw0 <= k < d.2 ==> inp.w[k] <= nextRst) &&
            (forall k :: jw0 <= k < d.2 - 1 ==> WLastAt(inp, inp.w[k]) == Some(false))
    ensures var d := Fill(inp, t0, jw0, nextRst);
            (d.0.DataReset? ==> d.1.lastData.None?) &&
            (d.1.lastData.Some? ==> d.0.DataDone? && jw0 < d.2 && d.1.lastData == Some(inp.w[d.2 - 1]) &&
                                    WLastAt(inp, inp.w[d.2 - 1]) == Some(true)) &&
            (d.0.DataDone? && d.1.lastData.None? ==> d.2 == |inp.w|) &&
            (!d.0.DataFail? && d.1.lastData.None? && jw0 < d.2 ==> WLastAt(inp, inp.w[d.2 - 1]) == Some(false))
    decreases |inp.w| - jw0
  {
    if jw0 < |inp.w| && inp.w[jw0] <= nextRst {
      var write := inp.w[jw0];
      var t1 := if t0.firstData.None? then t0.(firstData := Some(write)) else t0;
      if WLastAt(inp, write) == Some(false) {
        FillFacts(inp, t1, jw0 + 1, nextRst);
      }
    }
  }

  /**
   * The W loop of `calculate_full`: the newest transaction takes the W beats from `jw0` on, whatever
   * their time, the first as its first data, until a beat with `wlast` at 1 (its last data); a beat
   * after the reset `nextRst` is left unconsumed and ends the loop.
   */
  method TakeData(inp: WInputs, t0: Txn, jw0: int, nextRst: int) returns (e: DataEnd, t: Txn, jw: int)
    requires StrictlyIncreasing(inp.w) && 0 <= jw0 <= |inp.w| && t0.firstData.None? && t0.lastData.None?
    ensures jw0 <= jw <= |inp.w| && t.start == t0.start && t.next == t0.next
    ensures t.firstData == (if jw0 < jw then Some(inp.w[jw0]) else None)
    ensures forall k :: jw0 <= k < jw ==> inp.w[k] <= nextRst
    ensures forall k :: jw0 <= k < jw - 1 ==> WLastAt(inp, inp.w[k]) == Some(false)
    ensures e.DataFail? ==> jw0 < jw && e.error == WLastInvalid(inp.w[jw - 1]) && WLastAt(inp, inp.w[jw - 1]).None?
    ensures e.DataReset? ==> jw < |inp.w| && inp.w[jw] > nextRst && t.lastData.None?
    ensures t.lastData.Some? ==> e.DataDone? && jw0 < jw && t.lastData == Some(inp.w[jw - 1]) &&
                                 WLastAt(inp, inp.w[jw - 1]) == Some(true)
    ensures e.DataDone? && t.lastData.None? ==> jw == |inp.w|
    ensures !e.DataFail? && t.lastData.None? && jw0 < jw ==> WLastAt(inp, inp.w[jw - 1]) == Some(false)
    ensures !e.DataFail? ==> DataOk(inp, t)
    ensures (e, t, jw) == Fill(inp, t0, jw0, nextRst)
  {
    e, t, jw := FillFrom(inp, t0, jw0, nextRst);
    FillFacts(inp, t0, jw0, nextRst);
    if jw0 < jw {
      assert inp.w[jw0] in inp.w && inp.w[jw - 1] in inp.w && inp.w[jw0] <= inp.w[jw - 1];
    }
  }

  /** The loop itself: the beats are taken one at a time until Fill's stopping point. */
  method FillFrom(inp: WInputs, t0: Txn, jw0: int, nextRst: int) returns (e: DataEnd, t: Txn, jw: int)
    requires 0 <= jw0 <= |inp.w| && t0.lastData.None?
    ensures (e, t, jw) == Fill(inp, t0, jw0, nextRst)
  {
    t, jw, e := t0, jw0, DataDone;
    while jw < |inp.w|
      invariant jw0 <= jw <= |inp.w| && t.lastData.None?
      invariant Fill(inp, t, jw, nextRst) == Fill(inp, t0, jw0, nextRst)
    {
      var write := inp.w[jw];
      if write > nextRst {
        e := DataReset;
        break;
      }
      var t1 := if t.firstData.None? then t.(firstData := Some(write)) else t;
      var last := WLastAt(inp, write);
      assert Fill(inp, t, jw, nextRst) == (match last
        case None => (DataFail(WLastInvalid(write)), t1, jw + 1)
        case Some(l) => if l then (DataDone, t1.(lastData := Some(write)), jw + 1) else Fill(inp, t1, jw + 1, nextRst));
      t, jw := t1, jw + 1;
      if last.None? {
        e := DataFail(WLastInvalid(write));
        break;
      }
      if last.value {
        t := t.(lastData := Some(write));
        break;
      }
    }
  }

  // ---------------------------------------------------------------- the loops as functions

  /** What happened to one B beat. */
  datatype Reply = Taken | Orphan(at: int) | Fail(error: WrError)

  /** The state of the B loop: an error if one was returned, the dictionary, the lists and the B cursor. */
  datatype Walk = Walk(err: Option<WrError>, counting: map<string, seq<Txn>>, order: seq<string>, records: seq<Record>,
                       dropped: seq<int>, orphans: seq<int>, jb: int)

  /**
   * What the B beat `inp.b[jb]` does: an unreadable `bid` is an error; an ID with nothing in flight
   * makes the beat a response without command; otherwise an unreadable `bresp` is an error, a head
   * transaction that has not seen `wlast` is an error, and any other head is popped and completed
   * with the response (a transaction has a first data whenever it has a last one).
   */
  function OnResp(inp: WInputs, counting: map<string, seq<Txn>>, records: seq<Record>, jb: int)
    : (b: (Reply, map<string, seq<Txn>>, seq<Record>))
    requires 0 <= jb < |inp.b|
  {
    var respTime := inp.b[jb];
    match BIdAt(inp, respTime)
    case None => (Fail(BIdInvalid(respTime)), counting, records)
    case Some(x) =>
      if x !in counting || counting[x] == [] then (Orphan(respTime), counting, records)
      else match BRespAt(inp, respTime)
      case None => (Fail(BRespInvalid(respTime)), counting, records)
      case Some(resp) =>
        var t := counting[x][0];
        if t.lastData.None? || t.firstData.None? then (Fail(NoLastData(t.start, t.next)), counting, records)
        else (Taken, counting[x := counting[x][1..]], records + [Complete(t, respTime, resp)])
  }

  /**
   * When a B beat ends the B loop: an unreadable `bid`, or for an ID in flight an unreadable
   * `bresp` or a head transaction without its data, is an error; an ID with nothing in flight is a
   * response without command. Neither changes the state; a completion keeps every ID but its own.
   */
  lemma OnRespFails(inp: WInputs, counting: map<string, seq<Txn>>, records: seq<Record>, jb: int)
    requires 0 <= jb < |inp.b|
    ensures var b := OnResp(inp, counting, records, jb); var t := inp.b[jb]; var x := BIdAt(inp, t);
            var queued := x.Some? && x.value in counting && counting[x.value] != [];
            (b.0 == Fail(BIdInvalid(t)) <==> x.None?) &&
            (b.0 == Orphan(t) <==> x.Some? && !queued) &&
            (b.0 == Fail(BRespInvalid(t)) <==> queued && BRespAt(inp, t).None?) &&
            (b.0.Fail? && b.0.error.NoLastData? <==>
               queued && BRespAt(inp, t).Some? && (counting[x.value][0].lastData.None? || counting[x.value][0].firstData.None?)) &&
            (!b.0.Taken? ==> b.1 == counting && b.2 == records) &&
            (b.0.Taken? ==> b.1.Keys == counting.Keys && forall y :: y in counting && y != x.value ==> b.1[y] == counting[y])
  {
  }

  /**
   * The B loop from beat `jb`: beats before `nextTxn` are taken one by one, responses without
   * command included; the first one after `nextRst` moves everything in flight to the unfinished
   * list and clears the dictionary; an error ends the loop after its beat.
   */
  function Drain(inp: WInputs, counting: map<string, seq<Txn>>, order: seq<string>, records: seq<Record>,
                 dropped: seq<int>, orphans: seq<int>, jb: int, nextTxn: int, nextRst: int): (w: Walk)
    requires 0 <= jb <= |inp.b|
    ensures jb <= w.jb <= |inp.b|
    decreases |inp.b| - jb
  {
    if jb == |inp.b| || inp.b[jb] >= nextTxn then Walk(None, counting, order, records, dropped, orphans, jb)
    else if inp.b[jb] > nextRst then Walk(None, map[], [], records, dropped + Pending(order, counting), orphans, jb)
    else
      var b := OnResp(inp, counting, records, jb);
      match b.0
      case Fail(e) => Walk(Some(e), b.1, order, b.2, dropped, orphans, jb + 1)
      case Orphan(at) => Drain(inp, b.1, order, b.2, dropped, orphans + [at], jb + 1, nextTxn, nextRst)
      case Taken => Drain(inp, b.1, order, b.2, dropped, orphans, jb + 1, nextTxn, nextRst)
  }

  /**
   * AW `i` with ID `id` once `next_rst` is known: its transaction takes W beats from `jw` and is
   * pushed; a W beat past the reset clears everything in flight, it included, and skips the B loop;
   * otherwise the B loop runs from `jb`. The second component is the new W cursor.
   */
  function Open(inp: WInputs, counting: map<string, seq<Txn>>, order: seq<string>, records: seq<Record>,
                dropped: seq<int>, orphans: seq<int>, i: int, jw: int, jb: int, nextRst: int, id: string): (s: (Walk, int))
    requires 0 <= i < |inp.aw| && 0 <= jw <= |inp.w| && 0 <= jb <= |inp.b|
    ensures jw <= s.1 <= |inp.w| && jb <= s.0.jb <= |inp.b|
  {
    var nextTxn := PeekAfter(inp.aw, i, inp.lastTime);
    var d := Fill(inp, Opened(inp.aw[i], nextTxn), jw, nextRst);
    match d.0
    case DataFail(e) => (Walk(Some(e), counting, order, records, dropped, orphans, jb), d.2)
    case DataReset =>
      var e := Enqueue(counting, order, id, d.1);
      (Walk(None, map[], [], records, dropped + Pending(e.1, e.0), orphans, jb), d.2)
    case DataDone =>
      var e := Enqueue(counting, order, id, d.1);
      (Drain(inp, e.0, e.1, records, dropped, orphans, jb, nextTxn, nextRst), d.2)
  }

  /** `'transactions_loop` from AW `i`, with the W, B and reset cursors at `jw`, `jb` and `kr`. */
  function Rounds(inp: WInputs, counting: map<string, seq<Txn>>, order: seq<string>, records: seq<Record>,
                  dropped: seq<int>, orphans: seq<int>, i: int, jw: int, jb: int, kr: int): Outcome
    requires 0 <= i <= |inp.aw| && 0 <= jw <= |inp.w| && 0 <= jb <= |inp.b| && 0 <= kr <= |inp.rst|
    decreases |inp.aw| - i
  {
    if i == |inp.aw| then Done(records, dropped + Pending(order, counting), orphans)
    else
      var a := Advanced(inp.rst, inp.lastTime, kr, inp.aw[i]);
      if a.1 then Hangs(inp.aw[i])
      else match AwIdAt(inp, inp.aw[i])
      case None => Failed(AwIdInvalid(inp.aw[i]))
      case Some(id) =>
        var s := Open(inp, counting, order, records, dropped, orphans, i, jw, jb, NextRst(inp.rst, a.0, inp.lastTime), id);
        if s.0.err.Some? then Failed(s.0.err.value)
        else Rounds(inp, s.0.counting, s.0.order, s.0.records, s.0.dropped, s.0.orphans, i + 1, s.1, s.0.jb, a.0)
  }

  /** `calculate_full` on one interval. */
  function Run(inp: WInputs): Outcome
  {
    Rounds(inp, map[], [], [], [], [], 0, 0, 0, 0)
  }

  // ---------------------------------------------------------------- preservation lemmas

  lemma TxnOkLater(inp: WInputs, x: string, t: Txn, i: int, i2: int)
    requires Sorted(inp) && TxnOk(inp, x, t, i) && i <= i2 <= |inp.aw|
    ensures TxnOk(inp, x, t, i2)
  {
    if i < i2 { assert inp.aw[i - 1] < inp.aw[i2 - 1]; }
  }

  lemma QueuesOkLater(inp: WInputs, counting: map<string, seq<Txn>>, i: int, i2: int)
    requires Sorted(inp) && QueuesOk(inp, counting, i) && i <= i2 <= |inp.aw|
    ensures QueuesOk(inp, counting, i2)
  {
    forall x, a | x in counting && 0 <= a < |counting[x]| ensures TxnOk(inp, x, counting[x][a], i2) {
      TxnOkLater(inp, x, counting[x][a], i, i2);
    }
  }

  lemma RecordsBeforeLater(inp: WInputs, records: seq<Record>, i: int, jb: int, i2: int, jb2: int)
    requires Sorted(inp) && RecordsBefore(inp, records, i, jb) && i <= i2 <= |inp.aw| && jb <= jb2 <= |inp.b|
    ensures RecordsBefore(inp, records, i2, jb2)
  {
    if |records| > 0 {
      if i < i2 { assert inp.aw[i - 1] < inp.aw[i2 - 1]; }
      if jb < jb2 { assert inp.b[jb - 1] < inp.b[jb2 - 1]; }
      assert inp.aw[i - 1] <= inp.aw[i2 - 1] && inp.b[jb - 1] <= inp.b[jb2 - 1];
    }
  }

  lemma EnqueueQueues(inp: WInputs, counting: map<string, seq<Txn>>, order: seq<string>, i: int, id: string, t: Txn)
    requires Sorted(inp) && QueuesOk(inp, counting, i) && 0 <= i < |inp.aw|
    requires t.start == inp.aw[i] && TxnOk(inp, id, t, i + 1)
    ensures QueuesOk(inp, Enqueue(counting, order, id, t).0, i + 1)
  {
    QueuesOkLater(inp, counting, i, i + 1);
    var q := QueueAt(counting, id);
    forall a | 0 <= a < |q| ensures q[a].start < t.start {
      assert TxnOk(inp, id, q[a], i);
      assert inp.aw[i - 1] < inp.aw[i];
    }
  }

  lemma EnqueueConserved(inp: WInputs, counting: map<string, seq<Txn>>, order: seq<string>, records: seq<Record>,
                         dropped: seq<int>, i: int, id: string, t: Txn)
    requires Keys(counting, order) && Conserved(inp, order, counting, records, dropped, i) && i < |inp.aw| && t.start == inp.aw[i]
    ensures Conserved(inp, Enqueue(counting, order, id, t).1, Enqueue(counting, order, id, t).0, records, dropped, i + 1)
  {
    PendingEnqueue(counting, order, id, t);
    RM.PrefixSnoc(inp.aw, i);
    MultisetAdd(multiset(RecordStarts(records)) + multiset(dropped), multiset(Pending(order, counting)),
                multiset(Pending(Enqueue(counting, order, id, t).1, Enqueue(counting, order, id, t).0)),
                multiset(inp.aw[..i]), multiset(inp.aw[..i + 1]), t.start);
  }

  /** Pushing the transaction AW event `i` opened: `(c2, o2)` is the dictionary after the push. */
  lemma EnqueuePreserves(inp: WInputs, counting: map<string, seq<Txn>>, order: seq<string>, records: seq<Record>,
                         dropped: seq<int>, orphans: seq<int>, i: int, jb: int, id: string, t: Txn,
                         c2: map<string, seq<Txn>>, o2: seq<string>, i2: int)
    requires Sorted(inp) && Inv(inp, counting, order, records, dropped, orphans, i, jb) && i < |inp.aw|
    requires AwIdAt(inp, inp.aw[i]) == Some(id) && t.start == inp.aw[i] && t.next == PeekAfter(inp.aw, i, inp.lastTime)
    requires DataOk(inp, t)
    requires c2 == Enqueue(counting, order, id, t).0 && o2 == Enqueue(counting, order, id, t).1 && i2 == i + 1
    ensures Inv(inp, c2, o2, records, dropped, orphans, i2, jb)
  {
    assert TxnOk(inp, id, t, i + 1);
    EnqueueKeysOk(counting, order, id, t);
    EnqueueConserved(inp, counting, order, records, dropped, i, id, t);
    EnqueueQueues(inp, counting, order, i, id, t);
    EnqueueBehind(inp, records, counting, order, i, jb, id, t);
    RecordsBeforeLater(inp, records, i, jb, i + 1, jb);
  }

  lemma EnqueueBehind(inp: WInputs, records: seq<Record>, counting: map<string, seq<Txn>>, order: seq<string>,
                      i: int, jb: int, id: string, t: Txn)
    requires Sorted(inp) && Behind(inp, records, counting) && RecordsBefore(inp, records, i, jb) && 0 <= i < |inp.aw| && t.start == inp.aw[i]
    ensures Behind(inp, records, Enqueue(counting, order, id, t).0)
  {
    forall n | 0 <= n < |records| ensures records[n].start < t.start {
      assert inp.aw[i - 1] < inp.aw[i];
    }
  }

  /** Clearing the dictionary at a reset moves everything pending to the dropped issue times. */
  lemma DropPreserves(inp: WInputs, counting: map<string, seq<Txn>>, order: seq<string>, records: seq<Record>,
                      dropped: seq<int>, orphans: seq<int>, i: int, jb: int)
    requires Inv(inp, counting, order, records, dropped, orphans, i, jb)
    ensures Inv(inp, map[], [], records, dropped + Pending(order, counting), orphans, i, jb)
  {
    assert multiset(dropped + Pending(order, counting)) == multiset(dropped) + multiset(Pending(order, counting));
  }

  lemma MultisetSnoc(s: seq<int>, x: int)
    ensures multiset(s + [x]) == multiset(s) + multiset{x}
  {
  }

  /** A B beat `inp.b[jb]` whose ID has nothing in flight is reported and consumed. */
  lemma OrphanPreserves(inp: WInputs, counting: map<string, seq<Txn>>, order: seq<string>, records: seq<Record>,
                        dropped: seq<int>, orphans: seq<int>, i: int, jb: int)
    requires Sorted(inp) && Inv(inp, counting, order, records, dropped, orphans, i, jb) && jb < |inp.b|
    requires BIdAt(inp, inp.b[jb]).Some?
    ensures Inv(inp, counting, order, records, dropped, orphans + [inp.b[jb]], i, jb + 1)
  {
    RecordsBeforeLater(inp, records, i, jb, i, jb + 1);
    RM.PrefixSnoc(inp.b, jb);
    MultisetSnoc(orphans, inp.b[jb]);
    MultisetAdd(multiset(RespTimes(records)), multiset(orphans), multiset(orphans + [inp.b[jb]]),
                multiset(inp.b[..jb]), multiset(inp.b[..jb + 1]), inp.b[jb]);
    var o2 := orphans + [inp.b[jb]];
    forall k | 0 <= k < |o2| ensures o2[k] in inp.b && BIdAt(inp, o2[k]).Some? {
      if k == |orphans| { assert o2[k] == inp.b[jb]; } else { assert o2[k] == orphans[k]; }
    }
  }

  /** The record a B beat produces for the head transaction, whose data beats are complete. */
  function Complete(head: Txn, respTime: int, resp: string): (rec: Record)
    requires head.firstData.Some? && head.lastData.Some?
    ensures rec.start == head.start && rec.next == head.next && rec.respTime == respTime && rec.resp == resp
    ensures Some(rec.firstData) == head.firstData && Some(rec.lastData) == head.lastData
  {
    Record(head.start, respTime, head.lastData.value, head.firstData.value, resp, head.next)
  }

  /** The facts about the B beat `inp.b[jb]` that the engine has checked before completing. */
  ghost predicate Completes(inp: WInputs, i: int, jb: int, x: string, resp: string)
  {
    0 < i <= |inp.aw| && 0 <= jb < |inp.b| &&
    BIdAt(inp, inp.b[jb]) == Some(x) && BRespAt(inp, inp.b[jb]) == Some(resp) &&
    inp.b[jb] < PeekAfter(inp.aw, i - 1, inp.lastTime) && NoneWithin(inp.rst, inp.aw[i - 1], inp.b[jb])
  }

  lemma CompleteRecordOk(inp: WInputs, counting: map<string, seq<Txn>>, i: int, jb: int, x: string, resp: string)
    requires QueuesOk(inp, counting, i) && Completes(inp, i, jb, x, resp)
    requires x in counting && counting[x] != [] && counting[x][0].lastData.Some?
    ensures counting[x][0].firstData.Some?
    ensures RecordOk(inp, Complete(counting[x][0], inp.b[jb], resp))
  {
    var head := counting[x][0];
    assert TxnOk(inp, x, head, i);
    assert inp.b[jb] in inp.b;
    assert head.start <= inp.aw[i - 1];
  }

  lemma CompleteQueues(inp: WInputs, counting: map<string, seq<Txn>>, i: int, x: string)
    requires QueuesOk(inp, counting, i) && x in counting && counting[x] != []
    ensures QueuesOk(inp, counting[x := counting[x][1..]], i)
  {
    var q := counting[x];
    forall a | 0 <= a < |q| - 1 ensures q[1..][a] == q[a + 1] { }
  }

  lemma CompleteOrder(inp: WInputs, records: seq<Record>, counting: map<string, seq<Txn>>, i: int, jb: int,
                      x: string, resp: string)
    requires Sorted(inp) && QueuesOk(inp, counting, i) && Completes(inp, i, jb, x, resp)
    requires RecordsBefore(inp, records, i, jb) && RecordsOrdered(inp, records) && Behind(inp, records, counting)
    requires x in counting && counting[x] != [] && counting[x][0].firstData.Some? && counting[x][0].lastData.Some?
    ensures var rs := records + [Complete(counting[x][0], inp.b[jb], resp)];
            RecordsBefore(inp, rs, i, jb + 1) && RecordsOrdered(inp, rs) && Behind(inp, rs, counting[x := counting[x][1..]])
  {
    var q := counting[x];
    var rec := Complete(q[0], inp.b[jb], resp);
    var rs := records + [rec];
    var c: map<string, seq<Txn>> := counting[x := q[1..]];
    assert TxnOk(inp, x, q[0], i);
    RecordsBeforeLater(inp, records, i, jb, i, jb + 1);
    forall n | 0 <= n < |records| ensures records[n].respTime < inp.b[jb] {
      assert inp.b[jb - 1] < inp.b[jb];
    }
    forall n | 0 <= n < |records| && AwIdAt(inp, records[n].start) == AwIdAt(inp, rec.start)
      ensures records[n].start < rec.start
    {
      assert AwIdAt(inp, records[n].start) == Some(x);
    }
    forall n: int, y: string, a: int | 0 <= n < |rs| && y in c && 0 <= a < |c[y]| && AwIdAt(inp, rs[n].start) == Some(y)
      ensures rs[n].start < c[y][a].start
    {
      if y == x {
        assert c[y][a] == q[a + 1];
        if n == |records| { assert rs[n].start == q[0].start; }
      } else if n == |records| {
        assert false;
      }
    }
  }

  lemma CompleteConserved(inp: WInputs, counting: map<string, seq<Txn>>, order: seq<string>, records: seq<Record>,
                          dropped: seq<int>, i: int, x: string, rec: Record)
    requires Keys(counting, order) && Conserved(inp, order, counting, records, dropped, i)
    requires x in counting && counting[x] != [] && rec.start == counting[x][0].start
    ensures Conserved(inp, order, counting[x := counting[x][1..]], records + [rec], dropped, i)
  {
    PendingPop(order, counting, x);
    RecordStartsSnoc(records, rec);
    MultisetMove(multiset(RecordStarts(records)) + multiset(dropped), multiset(RecordStarts(records + [rec])) + multiset(dropped),
                 multiset(Pending(order, counting)), multiset(Pending(order, counting[x := counting[x][1..]])),
                 multiset(inp.aw[..i]), rec.start);
  }

  lemma CompleteAnswered(inp: WInputs, records: seq<Record>, orphans: seq<int>, jb: int, rec: Record)
    requires Answered(inp, records, orphans, jb) && jb < |inp.b| && rec.respTime == inp.b[jb]
    ensures Answered(inp, records + [rec], orphans, jb + 1)
  {
    RespTimesSnoc(records, rec);
    RM.PrefixSnoc(inp.b, jb);
    MultisetAdd(multiset(orphans), multiset(RespTimes(records)), multiset(RespTimes(records + [rec])),
                multiset(inp.b[..jb]), multiset(inp.b[..jb + 1]), rec.respTime);
  }

  /** A B beat `inp.b[jb]` that pops the head of `x` and completes it: `c2`, `rs2` and `jb2` are the new state. */
  lemma CompletePreserves(inp: WInputs, counting: map<string, seq<Txn>>, order: seq<string>, records: seq<Record>,
                          dropped: seq<int>, orphans: seq<int>, i: int, jb: int, x: string, resp: string,
                          c2: map<string, seq<Txn>>, rs2: seq<Record>, jb2: int)
    requires Sorted(inp) && Inv(inp, counting, order, records, dropped, orphans, i, jb) && Completes(inp, i, jb, x, resp)
    requires x in counting && counting[x] != [] && counting[x][0].firstData.Some? && counting[x][0].lastData.Some?
    requires c2 == counting[x := counting[x][1..]] && rs2 == records + [Complete(counting[x][0], inp.b[jb], resp)]
    requires jb2 == jb + 1
    ensures Inv(inp, c2, order, rs2, dropped, orphans, i, jb2)
  {
    var rec := Complete(counting[x][0], inp.b[jb], resp);
    KeysUpdate(counting, order, x, counting[x][1..]);
    CompleteRecordOk(inp, counting, i, jb, x, resp);
    CompleteQueues(inp, counting, i, x);
    CompleteOrder(inp, records, counting, i, jb, x, resp);
    CompleteConserved(inp, counting, order, records, dropped, i, x, rec);
    CompleteAnswered(inp, records, orphans, jb, rec);
  }

  // ---------------------------------------------------------------- the B loop and the AW loop

  /**
   * One B beat `inp.b[jb]` before the next AW and no later than the next reset: it is consumed; a
   * beat whose ID has no transaction in flight is a response without command; otherwise the head
   * transaction of that ID is popped and completed with the response, which requires its `wlast`
   * beat to have been seen.
   */
  method TakeResp(inp: WInputs, counting0: map<string, seq<Txn>>, order: seq<string>, records0: seq<Record>,
                  dropped: seq<int>, orphans: seq<int>, i: int, jb: int)
    returns (b: Reply, counting: map<string, seq<Txn>>, records: seq<Record>, jb2: int)
    requires Sorted(inp) && Inv(inp, counting0, order, records0, dropped, orphans, i, jb) && 0 < i && jb < |inp.b|
    requires inp.b[jb] < PeekAfter(inp.aw, i - 1, inp.lastTime) && NoneWithin(inp.rst, inp.aw[i - 1], inp.b[jb])
    ensures jb2 == jb + 1 && (b, counting, records) == OnResp(inp, counting0, records0, jb)
    ensures b.Taken? ==> Inv(inp, counting, order, records, dropped, orphans, i, jb2)
    ensures b.Orphan? ==> b.at == inp.b[jb] && counting == counting0 && records == records0 &&
                          Inv(inp, counting, order, records, dropped, orphans + [b.at], i, jb2)
    ensures b.Fail? ==> ErrorOk(inp, b.error) && (b.error.BIdInvalid? || b.error.BRespInvalid? ==> b.error.at == inp.b[jb])
  {
    counting, records, jb2 := counting0, records0, jb + 1;
    var respTime := inp.b[jb];
    assert respTime in inp.b;
    var bid := BIdAt(inp, respTime);
    if bid.None? {
      return Fail(BIdInvalid(respTime)), counting, records, jb2;
    }
    var x := bid.value;
    if x !in counting || counting[x] == [] {
      OrphanPreserves(inp, counting, order, records, dropped, orphans, i, jb);
      return Orphan(respTime), counting, records, jb2;
    }
    var t := counting[x][0];
    assert TxnOk(inp, x, t, i);
    var resp := BRespAt(inp, respTime);
    if resp.None? {
      return Fail(BRespInvalid(respTime)), counting, records, jb2;
    }
    if t.lastData.None? {
      return Fail(NoLastData(t.start, t.next)), counting, records, jb2;
    }
    assert Completes(inp, i, jb, x, resp.value);
    records := records + [Complete(t, respTime, resp.value)];
    counting := counting[x := counting[x][1..]];
    CompletePreserves(inp, counting0, order, records0, dropped, orphans, i, jb, x, resp.value, counting, records, jb2);
    b := Taken;
  }

  /** At a reset, everything in flight joins the unfinished list and the dictionary is cleared. */
  method AtReset(inp: WInputs, counting: map<string, seq<Txn>>, order: seq<string>, records: seq<Record>,
                 dropped0: seq<int>, orphans: seq<int>, i: int, jb: int)
    returns (dropped: seq<int>)
    requires Inv(inp, counting, order, records, dropped0, orphans, i, jb)
    ensures dropped == dropped0 + Pending(order, counting)
    ensures Inv(inp, map[], [], records, dropped, orphans, i, jb)
  {
    DropPreserves(inp, counting, order, records, dropped0, orphans, i, jb);
    dropped := dropped0 + Pending(order, counting);
  }

  /**
   * The B loop of `calculate_full` for one AW: consumes the B beats before the next AW `nextTxn`; a
   * beat after the reset `nextRst` moves everything in flight to the unfinished list, clears the
   * dictionary and is left for the next AW. Responses without command do not end the loop.
   */
  method DrainResponses(inp: WInputs, counting0: map<string, seq<Txn>>, order0: seq<string>, records0: seq<Record>,
                        dropped0: seq<int>, orphans0: seq<int>, i: int, jb0: int, nextTxn: int, nextRst: int, ghost kr: int)
    returns (err: Option<WrError>, counting: map<string, seq<Txn>>, order: seq<string>, records: seq<Record>,
             dropped: seq<int>, orphans: seq<int>, jb: int)
    requires Sorted(inp) && Inv(inp, counting0, order0, records0, dropped0, orphans0, i, jb0)
    requires 0 < i && nextTxn == PeekAfter(inp.aw, i - 1, inp.lastTime)
    requires 0 <= kr <= |inp.rst| && (kr > 0 ==> inp.rst[kr - 1] < inp.aw[i - 1])
    requires nextRst == NextRst(inp.rst, kr, inp.lastTime)
    ensures Walk(err, counting, order, records, dropped, orphans, jb) == Drain(inp, counting0, order0, records0, dropped0, orphans0, jb0, nextTxn, nextRst)
    ensures err.None? ==> Inv(inp, counting, order, records, dropped, orphans, i, jb)
    ensures err.Some? ==> ErrorOk(inp, err.value)
  {
    counting, order, records, dropped, orphans, jb := counting0, order0, records0, dropped0, orphans0, jb0;
    while jb < |inp.b| && inp.b[jb] < nextTxn
      invariant Inv(inp, counting, order, records, dropped, orphans, i, jb)
      invariant Drain(inp, counting, order, records, dropped, orphans, jb, nextTxn, nextRst) == Drain(inp, counting0, order0, records0, dropped0, orphans0, jb0, nextTxn, nextRst)
      decreases |inp.b| - jb
    {
      var stop;
      stop, err, counting, order, records, dropped, orphans, jb := DrainOne(inp, counting, order, records, dropped, orphans, i, jb, nextTxn, nextRst, kr);
      if stop {
        return;
      }
    }
    return None, counting, order, records, dropped, orphans, jb;
  }

  /** One pass of the B loop on the beat `inp.b[jb0]`: `stop` when the loop ends there. */
  method DrainOne(inp: WInputs, counting0: map<string, seq<Txn>>, order0: seq<string>, records0: seq<Record>,
                  dropped0: seq<int>, orphans0: seq<int>, i: int, jb0: int, nextTxn: int, nextRst: int, ghost kr: int)
    returns (stop: bool, err: Option<WrError>, counting: map<string, seq<Txn>>, order: seq<string>, records: seq<Record>,
             dropped: seq<int>, orphans: seq<int>, jb: int)
    requires Sorted(inp) && Inv(inp, counting0, order0, records0, dropped0, orphans0, i, jb0)
    requires 0 < i && nextTxn == PeekAfter(inp.aw, i - 1, inp.lastTime)
    requires 0 <= kr <= |inp.rst| && (kr > 0 ==> inp.rst[kr - 1] < inp.aw[i - 1])
    requires nextRst == NextRst(inp.rst, kr, inp.lastTime)
    requires jb0 < |inp.b| && inp.b[jb0] < nextTxn
    ensures stop ==> Walk(err, counting, order, records, dropped, orphans, jb) == Drain(inp, counting0, order0, records0, dropped0, orphans0, jb0, nextTxn, nextRst)
    ensures !stop ==> err.None? && jb == jb0 + 1 &&
                      Drain(inp, counting, order, records, dropped, orphans, jb, nextTxn, nextRst) == Drain(inp, counting0, order0, records0, dropped0, orphans0, jb0, nextTxn, nextRst)
    ensures err.None? ==> Inv(inp, counting, order, records, dropped, orphans, i, jb)
    ensures err.Some? ==> ErrorOk(inp, err.value)
  {
    if inp.b[jb0] > nextRst {
      dropped := AtReset(inp, counting0, order0, records0, dropped0, orphans0, i, jb0);
      return true, None, map[], [], records0, dropped, orphans0, jb0;
    }
    ResetFree(inp.rst, kr, inp.aw[i - 1], inp.b[jb0]);
    var b;
    b, counting, records, jb := TakeResp(inp, counting0, order0, records0, dropped0, orphans0, i, jb0);
    DrainTakes(inp, counting0, order0, records0, dropped0, orphans0, jb0, nextTxn, nextRst);
    order, dropped, orphans := order0, dropped0, orphans0;
    if b.Fail? {
      return true, Some(b.error), counting, order, records, dropped, orphans, jb;
    }
    if b.Orphan? {
      orphans := orphans + [b.at];
    }
    return false, None, counting, order, records, dropped, orphans, jb;
  }

  /** A beat no later than the reset is taken, and the loop goes on from the next one unless it failed there. */
  lemma DrainTakes(inp: WInputs, counting: map<string, seq<Txn>>, order: seq<string>, records: seq<Record>,
                   dropped: seq<int>, orphans: seq<int>, jb: int, nextTxn: int, nextRst: int)
    requires 0 <= jb < |inp.b| && inp.b[jb] < nextTxn && inp.b[jb] <= nextRst
    ensures var b := OnResp(inp, counting, records, jb);
            Drain(inp, counting, order, records, dropped, orphans, jb, nextTxn, nextRst) ==
            match b.0
            case Fail(e) => Walk(Some(e), b.1, order, b.2, dropped, orphans, jb + 1)
            case Orphan(at) => Drain(inp, b.1, order, b.2, dropped, orphans + [at], jb + 1, nextTxn, nextRst)
            case Taken => Drain(inp, b.1, order, b.2, dropped, orphans, jb + 1, nextTxn, nextRst)
  {
  }

  /** How the analysis can stop before the AW events run out. */
  ghost predicate Stopped(inp: WInputs, o: Outcome)
  {
    (o.Failed? && ErrorOk(inp, o.error)) || (o.Hangs? && o.at in inp.aw && o.at > inp.lastTime + 1)
  }

  /**
   * The body of `'transactions_loop` once the AW's ID is known: open the transaction, run the W loop
   * on it and push it under its ID; then either clear everything at a reset or run the B loop.
   */
  method Serve(inp: WInputs, counting0: map<string, seq<Txn>>, order0: seq<string>, records0: seq<Record>,
               dropped0: seq<int>, orphans0: seq<int>, i: int, jw0: int, jb0: int, kr: int, id: string)
    returns (err: Option<WrError>, counting: map<string, seq<Txn>>, order: seq<string>, records: seq<Record>,
             dropped: seq<int>, orphans: seq<int>, jw: int, jb: int)
    requires Sorted(inp) && Inv(inp, counting0, order0, records0, dropped0, orphans0, i, jb0) && 0 <= jw0 <= |inp.w|
    requires i < |inp.aw| && AwIdAt(inp, inp.aw[i]) == Some(id)
    requires 0 <= kr <= |inp.rst| && (kr > 0 ==> inp.rst[kr - 1] < inp.aw[i])
    ensures err.None? ==> Inv(inp, counting, order, records, dropped, orphans, i + 1, jb) && 0 <= jw <= |inp.w|
    ensures err.Some? ==> ErrorOk(inp, err.value)
    ensures (Walk(err, counting, order, records, dropped, orphans, jb), jw) ==
            Open(inp, counting0, order0, records0, dropped0, orphans0, i, jw0, jb0, NextRst(inp.rst, kr, inp.lastTime), id)
  {
    records, orphans, jb := records0, orphans0, jb0;
    var nextTxn := PeekAfter(inp.aw, i, inp.lastTime);
    var nextRst := NextRst(inp.rst, kr, inp.lastTime);
    var e, t;
    e, t, jw := TakeData(inp, Opened(inp.aw[i], nextTxn), jw0, nextRst);
    if e.DataFail? {
      assert inp.w[jw - 1] in inp.w;
      return Some(e.error), counting0, order0, records, dropped0, orphans, jw, jb;
    }
    counting, order := Enqueue(counting0, order0, id, t).0, Enqueue(counting0, order0, id, t).1;
    EnqueuePreserves(inp, counting0, order0, records0, dropped0, orphans0, i, jb0, id, t, counting, order, i + 1);
    if e.DataReset? {
      dropped := AtReset(inp, counting, order, records, dropped0, orphans0, i + 1, jb0);
      return None, map[], [], records, dropped, orphans, jw, jb;
    }
    err, counting, order, records, dropped, orphans, jb :=
      DrainResponses(inp, counting, order, records0, dropped0, orphans0, i + 1, jb0, nextTxn, nextRst, kr);
  }

  /** An AW served under its ID: the run fails with the error of its walk, or goes on from the next AW. */
  lemma RoundsServe(inp: WInputs, counting: map<string, seq<Txn>>, order: seq<string>, records: seq<Record>,
                    dropped: seq<int>, orphans: seq<int>, i: int, jw: int, jb: int, kr0: int, kr: int, id: string)
    requires 0 <= i < |inp.aw| && 0 <= jw <= |inp.w| && 0 <= jb <= |inp.b| && 0 <= kr0 <= |inp.rst|
    requires Advanced(inp.rst, inp.lastTime, kr0, inp.aw[i]) == (kr, false) && AwIdAt(inp, inp.aw[i]) == Some(id)
    ensures var s := Open(inp, counting, order, records, dropped, orphans, i, jw, jb, NextRst(inp.rst, kr, inp.lastTime), id);
            Rounds(inp, counting, order, records, dropped, orphans, i, jw, jb, kr0) ==
            if s.0.err.Some? then Failed(s.0.err.value)
            else Rounds(inp, s.0.counting, s.0.order, s.0.records, s.0.dropped, s.0.orphans, i + 1, s.1, s.0.jb, kr)
  {
  }

  /** One pass of `'transactions_loop`: move `next_rst` up to the AW time, read the AW's ID, serve it. */
  method Round(inp: WInputs, counting0: map<string, seq<Txn>>, order0: seq<string>, records0: seq<Record>,
               dropped0: seq<int>, orphans0: seq<int>, i: int, jw0: int, jb0: int, kr0: int)
    returns (stop: Option<Outcome>, counting: map<string, seq<Txn>>, order: seq<string>, records: seq<Record>,
             dropped: seq<int>, orphans: seq<int>, jw: int, jb: int, kr: int)
    requires Sorted(inp) && Inv(inp, counting0, order0, records0, dropped0, orphans0, i, jb0) && 0 <= jw0 <= |inp.w|
    requires ResetsBefore(inp.rst, inp.aw, kr0, i) && i < |inp.aw|
    ensures stop.None? ==> Inv(inp, counting, order, records, dropped, orphans, i + 1, jb) && 0 <= jw <= |inp.w| &&
                           ResetsBefore(inp.rst, inp.aw, kr, i + 1)
    ensures stop.None? ==> Rounds(inp, counting, order, records, dropped, orphans, i + 1, jw, jb, kr) ==
                           Rounds(inp, counting0, order0, records0, dropped0, orphans0, i, jw0, jb0, kr0)
    ensures stop.Some? ==> Stopped(inp, stop.value) &&
                           stop.value == Rounds(inp, counting0, order0, records0, dropped0, orphans0, i, jw0, jb0, kr0)
  {
    counting, order, records, dropped, orphans, jw, jb := counting0, order0, records0, dropped0, orphans0, jw0, jb0;
    var time := inp.aw[i];
    assert time in inp.aw;
    assert i > 0 ==> inp.aw[i - 1] < time;
    var stuck;
    kr, stuck := AdvanceReset(inp.rst, inp.lastTime, kr0, time);
    if stuck {
      return Some(Hangs(time)), counting, order, records, dropped, orphans, jw, jb, kr;
    }
    var idv := AwIdAt(inp, time);
    if idv.None? {
      return Some(Failed(AwIdInvalid(time))), counting, order, records, dropped, orphans, jw, jb, kr;
    }
    var err;
    err, counting, order, records, dropped, orphans, jw, jb :=
      Serve(inp, counting0, order0, records0, dropped0, orphans0, i, jw0, jb0, kr, idv.value);
    RoundsServe(inp, counting0, order0, records0, dropped0, orphans0, i, jw0, jb0, kr0, kr, idv.value);
    if err.Some? {
      return Some(Failed(err.value)), counting, order, records, dropped, orphans, jw, jb, kr;
    }
    assert inp.aw[i] == time;
    stop := None;
  }

  lemma Initially(inp: WInputs)
    ensures Inv(inp, map[], [], [], [], [], 0, 0)
  {
    assert inp.aw[..0] == [] && inp.b[..0] == [];
  }

  /** Once every AW is seen, the records and the unfinished list account for each AW once. */
  lemma Finish(inp: WInputs, counting: map<string, seq<Txn>>, order: seq<string>, records: seq<Record>,
               dropped: seq<int>, orphans: seq<int>, i: int, jb: int, unfinished: seq<int>)
    requires Inv(inp, counting, order, records, dropped, orphans, i, jb) && i == |inp.aw|
    requires unfinished == dropped + Pending(order, counting)
    ensures RecordsOk(inp, records) && RecordsOrdered(inp, records) && OrphansOk(inp, orphans)
    ensures multiset(RecordStarts(records)) + multiset(unfinished) == multiset(inp.aw)
    ensures exists n :: 0 <= n <= |inp.b| && multiset(RespTimes(records)) + multiset(orphans) == multiset(inp.b[..n])
  {
    assert inp.aw[..i] == inp.aw;
    assert multiset(dropped + Pending(order, counting)) == multiset(dropped) + multiset(Pending(order, counting));
  }

  /**
   * `AXIWrAnalyzer::calculate_full` on one interval: the AW loop with its reset cursor. The
   * unfinished list holds what was in flight at each reset and at the end (in the source, a hash
   * map's queues in no fixed order, so only the multiset is stated).
   */
  method Match(inp: WInputs) returns (o: Outcome)
    requires Sorted(inp)
    ensures o == Run(inp)
    ensures o.Done? ==> RecordsOk(inp, o.records) && RecordsOrdered(inp, o.records) && OrphansOk(inp, o.orphans)
    ensures o.Done? ==> multiset(RecordStarts(o.records)) + multiset(o.unfinished) == multiset(inp.aw)
    ensures o.Done? ==> exists n :: 0 <= n <= |inp.b| && multiset(RespTimes(o.records)) + multiset(o.orphans) == multiset(inp.b[..n])
    ensures !o.Done? ==> Stopped(inp, o)
  {
    var stop, counting, order, records, dropped, orphans, i, jb := AwLoop(inp);
    if stop.Some? {
      return stop.value;
    }
    var unfinished := dropped + Pending(order, counting);
    Finish(inp, counting, order, records, dropped, orphans, i, jb, unfinished);
    return Done(records, unfinished, orphans);
  }

  /** The AW loop of `calculate_full`: one round per AW, until the last AW or the first failure. */
  method AwLoop(inp: WInputs)
    returns (stop: Option<Outcome>, counting: map<string, seq<Txn>>, order: seq<string>, records: seq<Record>,
             dropped: seq<int>, orphans: seq<int>, i: int, jb: int)
    requires Sorted(inp)
    ensures stop.Some? ==> Stopped(inp, stop.value) && stop.value == Run(inp)
    ensures stop.None? ==> Inv(inp, counting, order, records, dropped, orphans, i, jb) && i == |inp.aw| &&
                           Run(inp) == Done(records, dropped + Pending(order, counting), orphans)
  {
    records, counting, order, dropped, orphans := [], map[], [], [], [];
    var jw, kr := 0, 0;
    i, jb := 0, 0;
    Initially(inp);
    while i < |inp.aw|
      invariant Inv(inp, counting, order, records, dropped, orphans, i, jb) && 0 <= jw <= |inp.w|
      invariant ResetsBefore(inp.rst, inp.aw, kr, i)
      invariant Rounds(inp, counting, order, records, dropped, orphans, i, jw, jb, kr) == Run(inp)
    {
      stop, counting, order, records, dropped, orphans, jw, jb, kr := Round(inp, counting, order, records, dropped, orphans, i, jw, jb, kr);
      if stop.Some? {
        return;
      }
      i := i + 1;
    }
    stop := None;
  }

  // ---------------------------------------------------------------- no response lost

  /** Every B beat of `inp.b[a..c]` closes a record or was reported as a response without command. */
  ghost predicate Accounted(inp: WInputs, records: seq<Record>, orphans: seq<int>, a: int, c: int)
    requires 0 <= a <= c <= |inp.b|
  {
    forall k :: a <= k < c ==> inp.b[k] in RespTimes(records) || inp.b[k] in orphans
  }

  lemma AccountedGrows(inp: WInputs, records: seq<Record>, orphans: seq<int>, records2: seq<Record>, orphans2: seq<int>, a: int, c: int)
    requires 0 <= a <= c <= |inp.b| && Accounted(inp, records, orphans, a, c)
    requires records <= records2 && orphans <= orphans2
    ensures Accounted(inp, records2, orphans2, a, c)
  {
    forall k | a <= k < c && inp.b[k] in RespTimes(records) ensures inp.b[k] in RespTimes(records2) {
      var q :| 0 <= q < |records| && RespTimes(records)[q] == inp.b[k];
      assert records2[q] == records[q];
      assert RespTimes(records2)[q] == inp.b[k];
    }
    forall k | a <= k < c && inp.b[k] in orphans ensures inp.b[k] in orphans2 {
      var q :| 0 <= q < |orphans| && orphans[q] == inp.b[k];
      assert orphans2[q] == orphans[q];
    }
  }

  lemma AccountedJoin(inp: WInputs, records: seq<Record>, orphans: seq<int>, a: int, b: int, c: int)
    requires 0 <= a <= b <= c <= |inp.b| && Accounted(inp, records, orphans, a, b) && Accounted(inp, records, orphans, b, c)
    ensures Accounted(inp, records, orphans, a, c)
  {
  }

  /** A B beat taken without error closes a record at that beat or is a response without command. */
  lemma OnRespAccounts(inp: WInputs, counting: map<string, seq<Txn>>, records: seq<Record>, jb: int)
    requires 0 <= jb < |inp.b|
    ensures var b := OnResp(inp, counting, records, jb);
            records <= b.2 && (b.0.Taken? ==> inp.b[jb] in RespTimes(b.2)) && (b.0.Orphan? ==> b.0.at == inp.b[jb])
  {
    var b := OnResp(inp, counting, records, jb);
    if b.0.Taken? {
      assert RespTimes(b.2)[|records|] == inp.b[jb];
    }
  }

  /**
   * The B loop loses no response: each beat it takes closes a record or is a response without
   * command, and it stops only at the end of the beats, at the next AW or past the reset.
   */
  lemma {:induction false} DrainAccounts(inp: WInputs, counting: map<string, seq<Txn>>, order: seq<string>, records: seq<Record>,
                                         dropped: seq<int>, orphans: seq<int>, jb: int, nextTxn: int, nextRst: int)
    requires 0 <= jb <= |inp.b|
    ensures var w := Drain(inp, counting, order, records, dropped, orphans, jb, nextTxn, nextRst);
            w.err.None? ==> Accounted(inp, w.records, w.orphans, jb, w.jb) && records <= w.records && orphans <= w.orphans
    ensures var w := Drain(inp, counting, order, records, dropped, orphans, jb, nextTxn, nextRst);
            w.err.None? ==> w.jb == |inp.b| || inp.b[w.jb] >= nextTxn || inp.b[w.jb] > nextRst
    decreases |inp.b| - jb, 1
  {
    if jb < |inp.b| && inp.b[jb] < nextTxn && inp.b[jb] <= nextRst && !OnResp(inp, counting, records, jb).0.Fail? {
      DrainAccountsStep(inp, counting, order, records, dropped, orphans, jb, nextTxn, nextRst);
    }
  }

  /** What `DrainAccounts` states about one walk of the B loop from `jb`. */
  ghost predicate DrainsFrom(inp: WInputs, w: Walk, records: seq<Record>, orphans: seq<int>, jb: int, nextTxn: int, nextRst: int)
    requires 0 <= jb <= w.jb <= |inp.b|
  {
    w.err.None? ==>
      Accounted(inp, w.records, w.orphans, jb, w.jb) && records <= w.records && orphans <= w.orphans &&
      (w.jb == |inp.b| || inp.b[w.jb] >= nextTxn || inp.b[w.jb] > nextRst)
  }

  /** `DrainAccounts` for a walk whose first B beat is taken without error. */
  lemma {:induction false} DrainAccountsStep(inp: WInputs, counting: map<string, seq<Txn>>, order: seq<string>, records: seq<Record>,
                                             dropped: seq<int>, orphans: seq<int>, jb: int, nextTxn: int, nextRst: int)
    requires 0 <= jb < |inp.b| && inp.b[jb] < nextTxn && inp.b[jb] <= nextRst && !OnResp(inp, counting, records, jb).0.Fail?
    ensures DrainsFrom(inp, Drain(inp, counting, order, records, dropped, orphans, jb, nextTxn, nextRst), records, orphans, jb, nextTxn, nextRst)
    decreases |inp.b| - jb, 0
  {
    var b := OnResp(inp, counting, records, jb);
    OnRespAccounts(inp, counting, records, jb);
    var orphans1 := if b.0.Orphan? then orphans + [b.0.at] else orphans;
    assert Drain(inp, counting, order, records, dropped, orphans, jb, nextTxn, nextRst) ==
           Drain(inp, b.1, order, b.2, dropped, orphans1, jb + 1, nextTxn, nextRst);
    DrainAccounts(inp, b.1, order, b.2, dropped, orphans1, jb + 1, nextTxn, nextRst);
    if b.0.Orphan? { assert orphans1[|orphans|] == inp.b[jb]; }
    assert Accounted(inp, b.2, orphans1, jb, jb + 1);
    DrainsJoin(inp, Drain(inp, b.1, order, b.2, dropped, orphans1, jb + 1, nextTxn, nextRst),
               records, orphans, b.2, orphans1, jb, nextTxn, nextRst);
  }

  /** A walk from `jb + 1` that accounts for its beats, after beat `jb` is accounted for, accounts from `jb`. */
  lemma DrainsJoin(inp: WInputs, w: Walk, records: seq<Record>, orphans: seq<int>, records1: seq<Record>, orphans1: seq<int>,
                   jb: int, nextTxn: int, nextRst: int)
    requires 0 <= jb && jb + 1 <= w.jb <= |inp.b|
    requires DrainsFrom(inp, w, records1, orphans1, jb + 1, nextTxn, nextRst)
    requires Accounted(inp, records1, orphans1, jb, jb + 1) && records <= records1 && orphans <= orphans1
    ensures DrainsFrom(inp, w, records, orphans, jb, nextTxn, nextRst)
  {
    if w.err.None? {
      AccountedGrows(inp, records1, orphans1, w.records, w.orphans, jb, jb + 1);
      AccountedJoin(inp, w.records, w.orphans, jb, jb + 1, w.jb);
    }
  }

  /**
   * Where a run that is done may stop taking B beats: all of them taken, no AW at all, the first one
   * left at or past the interval's end, or, for the last AW, a reset at or after it (or the
   * sentinel one past the end) that comes before that B beat or before a W beat.
   */
  ghost predicate Cut(inp: WInputs, k: int)
    requires 0 <= k <= |inp.b|
  {
    k == |inp.b| || |inp.aw| == 0 || inp.b[k] >= inp.lastTime ||
    exists n :: 0 <= n <= |inp.rst| && inp.aw[|inp.aw| - 1] <= NextRst(inp.rst, n, inp.lastTime) &&
      (NextRst(inp.rst, n, inp.lastTime) < inp.b[k] || exists m :: 0 <= m < |inp.w| && NextRst(inp.rst, n, inp.lastTime) < inp.w[m])
  }

  /** A run that is done gets past AW `i`: its round neither hangs nor fails. */
  lemma RoundsDoneStep(inp: WInputs, counting: map<string, seq<Txn>>, order: seq<string>, records: seq<Record>,
                       dropped: seq<int>, orphans: seq<int>, i: int, jw: int, jb: int, kr: int) returns (a: (int, bool), s: (Walk, int))
    requires 0 <= i < |inp.aw| && 0 <= jw <= |inp.w| && 0 <= jb <= |inp.b| && 0 <= kr <= |inp.rst|
    requires Rounds(inp, counting, order, records, dropped, orphans, i, jw, jb, kr).Done?
    ensures a == Advanced(inp.rst, inp.lastTime, kr, inp.aw[i]) && !a.1 && AwIdAt(inp, inp.aw[i]).Some?
    ensures s == Open(inp, counting, order, records, dropped, orphans, i, jw, jb, NextRst(inp.rst, a.0, inp.lastTime), AwIdAt(inp, inp.aw[i]).value)
    ensures s.0.err.None? &&
            Rounds(inp, counting, order, records, dropped, orphans, i, jw, jb, kr) ==
            Rounds(inp, s.0.counting, s.0.order, s.0.records, s.0.dropped, s.0.orphans, i + 1, s.1, s.0.jb, a.0)
  {
    a := Advanced(inp.rst, inp.lastTime, kr, inp.aw[i]);
    s := Open(inp, counting, order, records, dropped, orphans, i, jw, jb, NextRst(inp.rst, a.0, inp.lastTime), AwIdAt(inp, inp.aw[i]).value);
  }

  /** One AW in a run that is done: no response lost, and after the last AW the beats left start at a cut. */
  lemma OpenAccounts(inp: WInputs, counting: map<string, seq<Txn>>, order: seq<string>, records: seq<Record>,
                     dropped: seq<int>, orphans: seq<int>, i: int, jw: int, jb: int, n: int, id: string)
    requires 0 <= i < |inp.aw| && 0 <= jw <= |inp.w| && 0 <= jb <= |inp.b| && 0 <= n <= |inp.rst|
    requires inp.aw[i] <= NextRst(inp.rst, n, inp.lastTime)
    ensures var s := Open(inp, counting, order, records, dropped, orphans, i, jw, jb, NextRst(inp.rst, n, inp.lastTime), id);
            s.0.err.None? ==> Accounted(inp, s.0.records, s.0.orphans, jb, s.0.jb) && records <= s.0.records && orphans <= s.0.orphans
    ensures var s := Open(inp, counting, order, records, dropped, orphans, i, jw, jb, NextRst(inp.rst, n, inp.lastTime), id);
            s.0.err.None? && i + 1 == |inp.aw| ==> Cut(inp, s.0.jb)
  {
    var nextRst := NextRst(inp.rst, n, inp.lastTime);
    var nextTxn := PeekAfter(inp.aw, i, inp.lastTime);
    var d := Fill(inp, Opened(inp.aw[i], nextTxn), jw, nextRst);
    var e := Enqueue(counting, order, id, d.1);
    if d.0.DataDone? {
      DrainAccounts(inp, e.0, e.1, records, dropped, orphans, jb, nextTxn, nextRst);
      var w := Drain(inp, e.0, e.1, records, dropped, orphans, jb, nextTxn, nextRst);
      if i + 1 == |inp.aw| && w.jb < |inp.b| && inp.b[w.jb] > nextRst {
        assert inp.aw[|inp.aw| - 1] <= NextRst(inp.rst, n, inp.lastTime) < inp.b[w.jb];
      }
    } else if d.0.DataReset? && i + 1 == |inp.aw| && jb < |inp.b| {
      assert inp.aw[|inp.aw| - 1] <= NextRst(inp.rst, n, inp.lastTime) < inp.w[d.2];
    }
  }

  /** From B beat `jb` on, the outcome `o` lost no response up to `k`, and `k` is a cut. */
  ghost predicate AccountsFrom(inp: WInputs, o: Outcome, records: seq<Record>, orphans: seq<int>, jb: int, k: int)
    requires 0 <= jb <= |inp.b|
  {
    o.Done? ==> jb <= k <= |inp.b| && Accounted(inp, o.records, o.orphans, jb, k) && Cut(inp, k) &&
                records <= o.records && orphans <= o.orphans
  }

  lemma {:induction false} RoundsAccount(inp: WInputs, counting: map<string, seq<Txn>>, order: seq<string>, records: seq<Record>,
                                         dropped: seq<int>, orphans: seq<int>, i: int, jw: int, jb: int, kr: int) returns (k: int)
    requires 0 <= i <= |inp.aw| && 0 <= jw <= |inp.w| && 0 <= jb <= |inp.b| && 0 <= kr <= |inp.rst|
    requires i == |inp.aw| ==> Cut(inp, jb)
    ensures AccountsFrom(inp, Rounds(inp, counting, order, records, dropped, orphans, i, jw, jb, kr), records, orphans, jb, k)
    decreases |inp.aw| - i, 1
  {
    k := jb;
    if i < |inp.aw| && Rounds(inp, counting, order, records, dropped, orphans, i, jw, jb, kr).Done? {
      k := RoundsAccountStep(inp, counting, order, records, dropped, orphans, i, jw, jb, kr);
    }
  }

  /** One AW of a run that is done, followed by the rest of the run. */
  lemma {:induction false} RoundsAccountStep(inp: WInputs, counting: map<string, seq<Txn>>, order: seq<string>, records: seq<Record>,
                                             dropped: seq<int>, orphans: seq<int>, i: int, jw: int, jb: int, kr: int) returns (k: int)
    requires 0 <= i < |inp.aw| && 0 <= jw <= |inp.w| && 0 <= jb <= |inp.b| && 0 <= kr <= |inp.rst|
    requires Rounds(inp, counting, order, records, dropped, orphans, i, jw, jb, kr).Done?
    ensures AccountsFrom(inp, Rounds(inp, counting, order, records, dropped, orphans, i, jw, jb, kr), records, orphans, jb, k)
    decreases |inp.aw| - i, 0
  {
    var a, s := RoundDoneAccounts(inp, counting, order, records, dropped, orphans, i, jw, jb, kr);
    var w := s.0;
    k := RoundsAccount(inp, w.counting, w.order, w.records, w.dropped, w.orphans, i + 1, s.1, w.jb, a.0);
    AccountsBefore(inp, Rounds(inp, counting, order, records, dropped, orphans, i, jw, jb, kr), w, records, orphans, jb, k);
  }

  /**
   * The AW `i` of a run that is done: the run goes on from the next AW with the walk `s`, which lost
   * no response and, after the last AW, leaves the B beats at a cut.
   */
  lemma RoundDoneAccounts(inp: WInputs, counting: map<string, seq<Txn>>, order: seq<string>, records: seq<Record>,
                          dropped: seq<int>, orphans: seq<int>, i: int, jw: int, jb: int, kr: int) returns (a: (int, bool), s: (Walk, int))
    requires 0 <= i < |inp.aw| && 0 <= jw <= |inp.w| && 0 <= jb <= |inp.b| && 0 <= kr <= |inp.rst|
    requires Rounds(inp, counting, order, records, dropped, orphans, i, jw, jb, kr).Done?
    ensures 0 <= a.0 <= |inp.rst| && 0 <= s.1 <= |inp.w| && jb <= s.0.jb <= |inp.b| && s.0.err.None?
    ensures Rounds(inp, counting, order, records, dropped, orphans, i, jw, jb, kr) ==
            Rounds(inp, s.0.counting, s.0.order, s.0.records, s.0.dropped, s.0.orphans, i + 1, s.1, s.0.jb, a.0)
    ensures Accounted(inp, s.0.records, s.0.orphans, jb, s.0.jb) && records <= s.0.records && orphans <= s.0.orphans
    ensures i + 1 == |inp.aw| ==> Cut(inp, s.0.jb)
  {
    a, s := RoundsDoneStep(inp, counting, order, records, dropped, orphans, i, jw, jb, kr);
    OpenAccounts(inp, counting, order, records, dropped, orphans, i, jw, jb, a.0, AwIdAt(inp, inp.aw[i]).value);
  }

  /** An AW that lost no response between `jb` and `w.jb` extends what the rest of the run accounts for. */
  lemma AccountsBefore(inp: WInputs, o: Outcome, w: Walk, records: seq<Record>, orphans: seq<int>, jb: int, k: int)
    requires 0 <= jb <= w.jb <= |inp.b| && Accounted(inp, w.records, w.orphans, jb, w.jb)
    requires records <= w.records && orphans <= w.orphans
    requires AccountsFrom(inp, o, w.records, w.orphans, w.jb, k)
    ensures AccountsFrom(inp, o, records, orphans, jb, k)
  {
    if o.Done? {
      AccountedGrows(inp, w.records, w.orphans, o.records, o.orphans, jb, w.jb);
      AccountedJoin(inp, o.records, o.orphans, jb, w.jb, k);
    }
  }

  /**
   * A run that is done loses no response: up to a cut, every B beat closes a record or was reported
   * as a response without command, and every B beat from the cut on lies at or past the interval's
   * end or past a reset that follows the last AW, or the last AW's W beats ran past such a reset.
   */
  lemma RunAnswersEveryResponse(inp: WInputs)
    ensures Run(inp).Done? ==> exists k :: 0 <= k <= |inp.b| && Accounted(inp, Run(inp).records, Run(inp).orphans, 0, k) && Cut(inp, k)
  {
    var k := RoundsAccount(inp, map[], [], [], [], [], 0, 0, 0, 0);
  }

  // ---------------------------------------------------------------- a response across a reset

  /** A B beat whose ID has a head transaction that saw `wlast` closes it with the response. */
  lemma RespCloses(inp: WInputs, counting: map<string, seq<Txn>>, records: seq<Record>, jb: int, x: string, resp: string)
    requires 0 <= jb < |inp.b| && x in counting && counting[x] != []
    requires counting[x][0].firstData.Some? && counting[x][0].lastData.Some?
    requires BIdAt(inp, inp.b[jb]) == Some(x) && BRespAt(inp, inp.b[jb]) == Some(resp)
    ensures OnResp(inp, counting, records, jb) == (Taken, counting[x := counting[x][1..]], records + [Complete(counting[x][0], inp.b[jb], resp)])
  {
  }

  /**
   * AWs at 10 and 15 with ID 0, a reset at 12, one W beat at 11 with `wlast`, and one B beat at 20:
   * the AW at 10 is completed by the beat at 20, after the reset at 12.
   */
  function AcrossReset(): WInputs
  {
    WInputs([10, 15], [11], [20], [12], 30,
            [(0, Binary("0"))], [(0, Binary("1"))], [(0, Binary("0"))], [(0, Binary("00"))])
  }

  /**
   * The reset clears only what is in flight when the cursor is moved past it, at the next AW; a
   * transaction issued before a reset can still be completed by a response after it.
   */
  lemma CompletesAcrossReset()
    ensures var inp := AcrossReset();
            inp.aw[0] < inp.rst[0] < inp.b[0] &&
            Run(inp) == Done([Record(10, 20, 11, 11, "00", 15)], [15], [])
  {
    var inp := AcrossReset();
    var t0 := Txn(10, 15, Some(11), Some(11));
    var t1 := Txn(15, 30, None, None);
    assert Advanced(inp.rst, 30, 0, 10) == (0, false);
    assert AwIdAt(inp, 10) == Some("0") && AwIdAt(inp, 15) == Some("0");
    assert WLastAt(inp, 11) == Some(true);
    assert Fill(inp, Opened(10, 15), 0, 12) == (DataDone, t0, 1);
    EnqueueFirst("0", t0);
    assert Drain(inp, map["0" := [t0]], ["0"], [], [], [], 0, 15, 12) == Walk(None, map["0" := [t0]], ["0"], [], [], [], 0);
    assert Open(inp, map[], [], [], [], [], 0, 0, 0, 12, "0") == (Walk(None, map["0" := [t0]], ["0"], [], [], [], 0), 1);
    assert Advanced(inp.rst, 30, 1, 15) == (1, false);
    assert Advanced(inp.rst, 30, 0, 15) == (1, false);
    assert Fill(inp, Opened(15, 30), 1, 31) == (DataDone, t1, 1);
    EnqueueBehindOnly("0", [t0], t1);
    assert [t0] + [t1] == [t0, t1];
    var c1: map<string, seq<Txn>> := map["0" := [t0, t1]];
    assert c1["0"][0] == t0 && c1["0"][1..] == [t1];
    assert BIdAt(inp, 20) == Some("0") && BRespAt(inp, 20) == Some("00");
    RespCloses(inp, c1, [], 0, "0", "00");
    assert Complete(t0, 20, "00") == Record(10, 20, 11, 11, "00", 15);
    var c2 := c1["0" := [t1]];
    assert Drain(inp, c2, ["0"], [Record(10, 20, 11, 11, "00", 15)], [], [], 1, 30, 31) ==
           Walk(None, c2, ["0"], [Record(10, 20, 11, 11, "00", 15)], [], [], 1);
    assert Drain(inp, c1, ["0"], [], [], [], 0, 30, 31) == Walk(None, c2, ["0"], [Record(10, 20, 11, 11, "00", 15)], [], [], 1);
    assert PeekAfter(inp.aw, 1, 30) == 30 && Enqueue(map["0" := [t0]], ["0"], "0", t1) == (c1, ["0"]);
    assert Open(inp, map["0" := [t0]], ["0"], [], [], [], 1, 1, 0, 31, "0") ==
           (Walk(None, c2, ["0"], [Record(10, 20, 11, 11, "00", 15)], [], [], 1), 1);
    assert Pending(["0"], c2) == [15];
  }

  /** `calculate_full` with its signals. */
  method CalculateFull(aw: seq<int>, w: seq<int>, b: seq<int>, rst: seq<int>, lastTime: int,
                       awId: Trace<SignalValue>, wLast: Trace<SignalValue>, bId: Trace<SignalValue>, bResp: Trace<SignalValue>)
    returns (o: Outcome)
    requires StrictlyIncreasing(aw) && StrictlyIncreasing(w) && StrictlyIncreasing(b) && StrictlyIncreasing(rst)
    ensures o == Run(WInputs(aw, w, b, rst, lastTime, awId, wLast, bId, bResp))
    // every record is an AW whose W beats ended with `wlast`, answered by a B beat with its ID, with
    // no reset between the latest AW before the response and the response; per ID in issue order,
    // overall in response order
    ensures o.Done? ==> RecordsOk(WInputs(aw, w, b, rst, lastTime, awId, wLast, bId, bResp), o.records)
    ensures o.Done? ==> RecordsOrdered(WInputs(aw, w, b, rst, lastTime, awId, wLast, bId, bResp), o.records)
    // every AW is completed exactly once or reported unfinished
    ensures o.Done? ==> multiset(RecordStarts(o.records)) + multiset(o.unfinished) == multiset(aw)
    // every B beat consumed is a record's response or a response without command
    ensures o.Done? ==> exists n :: 0 <= n <= |b| && multiset(RespTimes(o.records)) + multiset(o.orphans) == multiset(b[..n])
    ensures o.Failed? ==> ErrorOk(WInputs(aw, w, b, rst, lastTime, awId, wLast, bId, bResp), o.error)
    ensures o.Hangs? ==> o.at in aw && o.at > lastTime + 1
  {
    o := Match(WInputs(aw, w, b, rst, lastTime, awId, wLast, bId, bResp));
  }

  // ---------------------------------------------------------------- calculate_lite

  /** What `calculate_lite` works on: AW, W and B handshake indices, reset events, the last index, `bresp`. */
  datatype LiteInputs = LiteInputs(aw: seq<int>, w: seq<int>, b: seq<int>, rst: seq<int>, lastTime: int,
                                   bResp: Trace<SignalValue>)

  predicate LiteSorted(L: LiteInputs)
  {
    StrictlyIncreasing(L.aw) && StrictlyIncreasing(L.w) && StrictlyIncreasing(L.b) && StrictlyIncreasing(L.rst)
  }

  /**
   * A lite record: an AW with one W beat as its first and last data and one B beat as its response,
   * with no reset from the AW up to and including either beat, and the response in effect at the B beat.
   */
  ghost predicate LiteRecordOk(L: LiteInputs, rec: Record)
  {
    RM.Issued(L.aw, L.lastTime, rec.start, rec.next) && rec.firstData == rec.lastData &&
    NoneWithin(L.rst, rec.start, rec.lastData + 1) && NoneWithin(L.rst, rec.start, rec.respTime + 1) &&
    BitsAt(L.bResp, rec.respTime) == Some(rec.resp)
  }

  /** The `n`-th record took the `n`-th W beat and the `n`-th B beat. */
  ghost predicate LiteBeats(L: LiteInputs, records: seq<Record>)
  {
    |records| <= |L.w| && |records| <= |L.b| &&
    forall n :: 0 <= n < |records| ==> records[n].lastData == L.w[n] && records[n].respTime == L.b[n]
  }

  /** Records come in AW order, all from the first `i` AWs. */
  ghost predicate LiteStarts(L: LiteInputs, records: seq<Record>, i: int)
  {
    (|records| > 0 ==> 0 < i <= |L.aw|) &&
    (forall n :: 0 <= n < |records| ==> records[n].start <= L.aw[i - 1]) &&
    forall a, b :: 0 <= a < b < |records| ==> records[a].start < records[b].start
  }

  /**
   * After `i` AWs: the records are sound, took the W and B beats in order, and each AW seen is
   * recorded or unfinished. Both the W and the B cursor stand at `|records|`.
   */
  ghost predicate LiteInv(L: LiteInputs, records: seq<Record>, unfinished: seq<int>, i: int)
  {
    0 <= i <= |L.aw| && (forall n :: 0 <= n < |records| ==> LiteRecordOk(L, records[n])) &&
    LiteBeats(L, records) && LiteStarts(L, records, i) &&
    multiset(RecordStarts(records)) + multiset(unfinished) == multiset(L.aw[..i])
  }

  lemma LiteMatchPreserves(L: LiteInputs, records: seq<Record>, unfinished: seq<int>, i: int, rec: Record, rs2: seq<Record>)
    requires LiteSorted(L) && LiteInv(L, records, unfinished, i) && i < |L.aw|
    requires |records| < |L.w| && |records| < |L.b| && rec.lastData == L.w[|records|] && rec.respTime == L.b[|records|]
    requires rec.start == L.aw[i] && LiteRecordOk(L, rec) && rs2 == records + [rec]
    ensures LiteInv(L, rs2, unfinished, i + 1)
  {
    LiteMatchBeats(L, records, rec, rs2);
    LiteMatchStarts(L, records, i, rec, rs2);
    LiteMatchCount(L, records, unfinished, i, rec, rs2);
  }

  lemma LiteMatchBeats(L: LiteInputs, records: seq<Record>, rec: Record, rs2: seq<Record>)
    requires (forall n :: 0 <= n < |records| ==> LiteRecordOk(L, records[n])) && LiteBeats(L, records)
    requires |records| < |L.w| && |records| < |L.b| && rec.lastData == L.w[|records|] && rec.respTime == L.b[|records|]
    requires LiteRecordOk(L, rec) && rs2 == records + [rec]
    ensures (forall n :: 0 <= n < |rs2| ==> LiteRecordOk(L, rs2[n])) && LiteBeats(L, rs2)
  {
    forall n | 0 <= n < |rs2|
      ensures LiteRecordOk(L, rs2[n]) && rs2[n].lastData == L.w[n] && rs2[n].respTime == L.b[n]
    {
      if n < |records| { assert rs2[n] == records[n]; } else { assert rs2[n] == rec; }
    }
  }

  lemma LiteMatchStarts(L: LiteInputs, records: seq<Record>, i: int, rec: Record, rs2: seq<Record>)
    requires LiteSorted(L) && LiteStarts(L, records, i) && 0 <= i < |L.aw| && rec.start == L.aw[i] && rs2 == records + [rec]
    ensures LiteStarts(L, rs2, i + 1)
  {
    forall n | 0 <= n < |records| ensures records[n].start < rec.start {
      assert L.aw[i - 1] < L.aw[i];
    }
    forall a, b | 0 <= a < b < |rs2| ensures rs2[a].start < rs2[b].start {
      assert rs2[a] == records[a];
      if b < |records| { assert rs2[b] == records[b]; } else { assert rs2[b] == rec; }
    }
    forall n | 0 <= n < |rs2| ensures rs2[n].start <= L.aw[i] {
      if n < |records| { assert rs2[n] == records[n]; } else { assert rs2[n] == rec; }
    }
  }

  lemma LiteMatchCount(L: LiteInputs, records: seq<Record>, unfinished: seq<int>, i: int, rec: Record, rs2: seq<Record>)
    requires 0 <= i < |L.aw| && rec.start == L.aw[i] && rs2 == records + [rec]
    requires multiset(RecordStarts(records)) + multiset(unfinished) == multiset(L.aw[..i])
    ensures multiset(RecordStarts(rs2)) + multiset(unfinished) == multiset(L.aw[..i + 1])
  {
    RecordStartsSnoc(records, rec);
    RM.PrefixSnoc(L.aw, i);
    MultisetAdd(multiset(unfinished), multiset(RecordStarts(records)), multiset(RecordStarts(rs2)),
                multiset(L.aw[..i]), multiset(L.aw[..i + 1]), rec.start);
  }

  lemma LiteSkipPreserves(L: LiteInputs, records: seq<Record>, unfinished: seq<int>, i: int)
    requires LiteSorted(L) && LiteInv(L, records, unfinished, i) && i < |L.aw|
    ensures LiteInv(L, records, unfinished + [L.aw[i]], i + 1)
  {
    if |records| > 0 { assert L.aw[i - 1] < L.aw[i]; }
    RM.PrefixSnoc(L.aw, i);
    MultisetSnoc(unfinished, L.aw[i]);
    MultisetAdd(multiset(RecordStarts(records)), multiset(unfinished), multiset(unfinished + [L.aw[i]]),
                multiset(L.aw[..i]), multiset(L.aw[..i + 1]), L.aw[i]);
  }

  /**
   * `calculate_lite` from AW `i`, with the reset cursor at `kr`: the W and B cursors both stand at
   * the number of records. An AW takes the next W beat and the next B beat when both come before
   * the next reset; otherwise it is reported unfinished and no beat is consumed.
   */
  function LiteRounds(L: LiteInputs, records: seq<Record>, unfinished: seq<int>, i: int, kr: int): Outcome
    requires 0 <= i <= |L.aw| && 0 <= kr <= |L.rst|
    decreases |L.aw| - i
  {
    if i == |L.aw| then Done(records, unfinished, [])
    else
      var time := L.aw[i];
      var a := Advanced(L.rst, L.lastTime, kr, time);
      var j := |records|;
      var nextRst := NextRst(L.rst, a.0, L.lastTime);
      if a.1 then Hangs(time)
      else if j < |L.w| && nextRst > L.w[j] && j < |L.b| && nextRst > L.b[j] then
        match BitsAt(L.bResp, L.b[j])
        case None => Failed(BRespInvalid(L.b[j]))
        case Some(resp) =>
          LiteRounds(L, records + [Record(time, L.b[j], L.w[j], L.w[j], resp, PeekAfter(L.aw, i, L.lastTime))], unfinished, i + 1, a.0)
      else LiteRounds(L, records, unfinished + [time], i + 1, a.0)
  }

  /** `calculate_lite` on one interval. */
  function LiteRun(L: LiteInputs): Outcome
  {
    LiteRounds(L, [], [], 0, 0)
  }

  /** One AW at 10, one W beat at 5 and one B beat at 6, both before it. */
  function LiteRespBeforeIssue(): LiteInputs
  {
    LiteInputs([10], [5], [6], [], 30, [(0, Binary("00"))])
  }

  /** A lite AW is recorded with the next W and B beats even when the response came before the AW. */
  lemma LiteAnswersBeforeIssue()
    ensures var L := LiteRespBeforeIssue();
            L.b[0] < L.aw[0] && LiteRun(L) == Done([Record(10, 6, 5, 5, "00", 30)], [], [])
  {
    var L := LiteRespBeforeIssue();
    assert Advanced(L.rst, 30, 0, 10) == (0, false);
    assert BitsAt(L.bResp, 6) == Some("00");
  }

  /** How `calculate_lite` can stop before the AWs run out. */
  ghost predicate LiteStopped(L: LiteInputs, o: Outcome)
  {
    (o.Failed? && o.error.BRespInvalid? && o.error.at in L.b && BitsAt(L.bResp, o.error.at).None?) ||
    (o.Hangs? && o.at in L.aw && o.at > L.lastTime + 1)
  }

  /**
   * What one AW of `calculate_lite` does to the state: the reset cursor moves up to the AW, and the
   * AW is recorded, with the next W and B beats, exactly when both come before the next reset;
   * otherwise it joins the unfinished ones and nothing else changes.
   */
  ghost predicate LiteServed(L: LiteInputs, records0: seq<Record>, unfinished0: seq<int>, i: int, kr0: int,
                             records: seq<Record>, unfinished: seq<int>, kr: int)
  {
    0 <= i < |L.aw| && 0 <= kr0 <= |L.rst| && 0 <= kr <= |L.rst| &&
    kr == Advanced(L.rst, L.lastTime, kr0, L.aw[i]).0 &&
    (|records| == |records0| + 1 <==>
       |records0| < |L.w| && L.w[|records0|] < NextRst(L.rst, kr, L.lastTime) &&
       |records0| < |L.b| && L.b[|records0|] < NextRst(L.rst, kr, L.lastTime)) &&
    (|records| == |records0| + 1 ==>
       unfinished == unfinished0 && records[..|records0|] == records0 && records[|records0|].start == L.aw[i]) &&
    (|records| != |records0| + 1 ==> records == records0 && unfinished == unfinished0 + [L.aw[i]])
  }

  /**
   * One AW of `calculate_lite`: when the next W beat and the next B beat both come before the reset
   * `next_rst`, both are consumed and the AW is recorded with them; otherwise it is unfinished and
   * nothing is consumed.
   */
  method LiteRound(L: LiteInputs, records0: seq<Record>, unfinished0: seq<int>, i: int, kr0: int)
    returns (stop: Option<Outcome>, records: seq<Record>, unfinished: seq<int>, kr: int)
    requires LiteSorted(L) && LiteInv(L, records0, unfinished0, i)
    requires ResetsBefore(L.rst, L.aw, kr0, i) && i < |L.aw|
    ensures stop.None? ==> LiteInv(L, records, unfinished, i + 1) && ResetsBefore(L.rst, L.aw, kr, i + 1)
    ensures stop.None? ==> LiteServed(L, records0, unfinished0, i, kr0, records, unfinished, kr)
    ensures stop.None? ==> LiteRounds(L, records, unfinished, i + 1, kr) == LiteRounds(L, records0, unfinished0, i, kr0)
    ensures stop.Some? ==> LiteStopped(L, stop.value) && stop.value == LiteRounds(L, records0, unfinished0, i, kr0)
  {
    records, unfinished := records0, unfinished0;
    var time := L.aw[i];
    assert time in L.aw;
    assert i > 0 ==> L.aw[i - 1] < time;
    var stuck;
    kr, stuck := AdvanceReset(L.rst, L.lastTime, kr0, time);
    if stuck {
      return Some(Hangs(time)), records, unfinished, kr;
    }
    var j := |records0|;
    var nextRst := NextRst(L.rst, kr, L.lastTime);
    if j < |L.w| && nextRst > L.w[j] && j < |L.b| && nextRst > L.b[j] {
      var dataTime, respTime := L.w[j], L.b[j];
      assert respTime in L.b;
      var resp := BitsAt(L.bResp, respTime);
      if resp.None? {
        return Some(Failed(BRespInvalid(respTime))), records, unfinished, kr;
      }
      var rec := Record(time, respTime, dataTime, dataTime, resp.value, PeekAfter(L.aw, i, L.lastTime));
      ResetFree(L.rst, kr, time, dataTime + 1);
      ResetFree(L.rst, kr, time, respTime + 1);
      assert LiteRecordOk(L, rec);
      records := records0 + [rec];
      LiteMatchPreserves(L, records0, unfinished0, i, rec, records);
    } else {
      LiteSkipPreserves(L, records0, unfinished0, i);
      unfinished := unfinished0 + [time];
    }
    assert L.aw[i] == time;
    stop := None;
  }

  lemma LiteInitially(L: LiteInputs)
    ensures LiteInv(L, [], [], 0)
  {
    assert L.aw[..0] == [];
  }

  /** Once every AW is seen, each is recorded or unfinished. */
  lemma LiteFinish(L: LiteInputs, records: seq<Record>, unfinished: seq<int>, i: int)
    requires LiteInv(L, records, unfinished, i) && i == |L.aw|
    ensures (forall n :: 0 <= n < |records| ==> LiteRecordOk(L, records[n])) && LiteBeats(L, records)
    ensures forall a, b :: 0 <= a < b < |records| ==> records[a].start < records[b].start
    ensures multiset(RecordStarts(records)) + multiset(unfinished) == multiset(L.aw)
  {
    assert L.aw[..i] == L.aw;
  }

  /**
   * `AXIWrAnalyzer::calculate_lite` on one interval: at most one record per AW, in AW order; the
   * `n`-th record took the `n`-th W and B beats; every AW is recorded or reported unfinished.
   */
  method CalculateLite(L: LiteInputs) returns (o: Outcome)
    requires LiteSorted(L)
    ensures o == LiteRun(L)
    ensures o.Done? ==> (forall n :: 0 <= n < |o.records| ==> LiteRecordOk(L, o.records[n])) && LiteBeats(L, o.records)
    ensures o.Done? ==> forall a, b :: 0 <= a < b < |o.records| ==> o.records[a].start < o.records[b].start
    ensures o.Done? ==> multiset(RecordStarts(o.records)) + multiset(o.unfinished) == multiset(L.aw) && o.orphans == []
    ensures !o.Done? ==> LiteStopped(L, o)
  {
    var records: seq<Record> := [];
    var unfinished: seq<int> := [];
    var i, kr := 0, 0;
    LiteInitially(L);
    while i < |L.aw|
      invariant LiteInv(L, records, unfinished, i)
      invariant ResetsBefore(L.rst, L.aw, kr, i)
      invariant LiteRounds(L, records, unfinished, i, kr) == LiteRun(L)
    {
      var stop;
      stop, records, unfinished, kr := LiteRound(L, records, unfinished, i, kr);
      if stop.Some? {
        return stop.value;
      }
      i := i + 1;
    }
    LiteFinish(L, records, unfinished, i);
    return Done(records, unfinished, []);
  }
}
