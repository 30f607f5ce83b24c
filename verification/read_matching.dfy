// The invariant both ID-keyed read engines keep (the Python plugin and the Rust `calculate_full`),
// with the attribute lookups, which differ between them, passed in as functions.
module ReadMatching {
  import opened Wrappers
  import opened Traces
  import opened Inflight
  import opened Bus
  import opened AxiSampling
  import opened Resets

  /**
   * How an engine samples the ID, last-flag and response signals at an event time. The Python
   * plugin searches reversed lists for the latest sample at or before the event (its response list
   * is not reversed, so the earliest such sample wins there); the Rust analyzer reads the change
   * in effect one time index before the event.
   */
  datatype Lookups =
    | PythonLookups(arId: Trace<string>, rId: Trace<string>, rLast: Trace<string>, rResp: Trace<string>)
    | RustLookups(arIdSig: Trace<SignalValue>, rIdSig: Trace<SignalValue>, rLastSig: Trace<SignalValue>,
                  rRespSig: Trace<SignalValue>)

  /**
   * What a read engine works on: address and data event times, reset times, the simulation end
   * (default next-address time; one past it is the reset sentinel), and the attribute signals.
   */
  datatype Inputs = Inputs(ar: seq<int>, r: seq<int>, rst: seq<int>, timeEnd: int, lk: Lookups)

  /** The ID the address channel carries for an address event at `t`. */
  function ArIdAt(inp: Inputs, t: int): Option<string>
  {
    match inp.lk
    case PythonLookups(arId, _, _, _) => LatestAtOrBefore(arId, t)
    case RustLookups(arId, _, _, _) => GetIdValue(arId, t)
  }

  /** The ID a data beat at `t` carries. */
  function RIdAt(inp: Inputs, t: int): Option<string>
  {
    match inp.lk
    case PythonLookups(_, rId, _, _) => LatestAtOrBefore(rId, t)
    case RustLookups(_, rId, _, _) => GetIdValue(rId, t)
  }

  /** Whether the data beat at `t` is the last of its burst (`None` when the flag cannot be read). */
  function LastAt(inp: Inputs, t: int): Option<bool>
  {
    match inp.lk
    case PythonLookups(_, _, rLast, _) =>
      (match LatestAtOrBefore(rLast, t)
       case None => None
       case Some(v) => Some(v == "1"))
    case RustLookups(_, _, rLast, _) =>
      (match GetLogicValue(rLast, t)
       case None => None
       case Some(v) => Some(v == V1))
  }

  /** The response of the data beat at `t`. */
  function RespAt(inp: Inputs, t: int): Option<string>
  {
    match inp.lk
    case PythonLookups(_, _, _, rResp) => EarliestAtOrBefore(rResp, t)
    case RustLookups(_, _, _, rResp) => GetIdValue(rResp, t)
  }

  predicate Sorted(inp: Inputs)
  {
    StrictlyIncreasing(inp.ar) && StrictlyIncreasing(inp.r) && StrictlyIncreasing(inp.rst)
  }

  /** `(start, next)` is the issue time of address event `k` and the time that follows it. */
  ghost predicate Issued(ar: seq<int>, timeEnd: int, start: int, next: int)
  {
    exists k :: 0 <= k < |ar| && ar[k] == start && next == PeekAfter(ar, k, timeEnd)
  }

  /** What every emitted record satisfies. */
  ghost predicate RecordOk(inp: Inputs, rec: Record)
  {
    Issued(inp.ar, inp.timeEnd, rec.start, rec.next) &&
    rec.respTime == rec.lastData && rec.lastData in inp.r && rec.firstData in inp.r &&
    rec.firstData <= rec.lastData &&
    // the closing beat carries the ID its transaction was issued with, its last flag and the response
    ArIdAt(inp, rec.start).Some? && RIdAt(inp, rec.lastData) == ArIdAt(inp, rec.start) &&
    LastAt(inp, rec.lastData) == Some(true) && RespAt(inp, rec.lastData) == Some(rec.resp) &&
    // some address event at or after the issue, the latest one before the beat, has no reset between
    // it and the beat; a reset between the issue and that event is not excluded
    (exists k :: 0 <= k < |inp.ar| && rec.start <= inp.ar[k] && rec.lastData < PeekAfter(inp.ar, k, inp.timeEnd) &&
       NoneWithin(inp.rst, inp.ar[k], rec.lastData))
  }

  /** A transaction queued under `x`, seen after `i` address events and `j` data beats. */
  ghost predicate TxnOk(inp: Inputs, x: string, t: Txn, i: int, j: int)
  {
    ArIdAt(inp, t.start) == Some(x) && Issued(inp.ar, inp.timeEnd, t.start, t.next) &&
    0 < i <= |inp.ar| && t.start <= inp.ar[i - 1] &&
    (t.firstData.Some? ==> t.firstData.value in inp.r && 0 < j <= |inp.r| && t.firstData.value <= inp.r[j - 1])
  }

  ghost predicate QueueOk(inp: Inputs, x: string, q: seq<Txn>, i: int, j: int)
  {
    (forall a :: 0 <= a < |q| ==> TxnOk(inp, x, q[a], i, j)) && StartsIncreasing(q)
  }

  ghost predicate QueuesOk(inp: Inputs, counting: map<string, seq<Txn>>, i: int, j: int)
  {
    forall x :: x in counting ==> QueueOk(inp, x, counting[x], i, j)
  }

  ghost predicate RecordsOk(inp: Inputs, records: seq<Record>)
  {
    forall n :: 0 <= n < |records| ==> RecordOk(inp, records[n])
  }

  ghost predicate RecordsBefore(inp: Inputs, records: seq<Record>, i: int, j: int)
  {
    (|records| > 0 ==> 0 < i <= |inp.ar| && 0 < j <= |inp.r|) &&
    forall n :: 0 <= n < |records| ==> records[n].start <= inp.ar[i - 1] && records[n].lastData <= inp.r[j - 1]
  }

  /** Per ID, completions in issue order; overall, in the order of their last beats. */
  ghost predicate RecordsOrdered(inp: Inputs, records: seq<Record>)
  {
    (forall a, b :: 0 <= a < b < |records| && ArIdAt(inp, records[a].start) == ArIdAt(inp, records[b].start) ==>
       records[a].start < records[b].start) &&
    (forall a, b :: 0 <= a < b < |records| ==> records[a].lastData < records[b].lastData)
  }

  /** A completed transaction was issued before everything still queued under its ID. */
  ghost predicate Behind(inp: Inputs, records: seq<Record>, counting: map<string, seq<Txn>>)
  {
    forall n, x, a :: (0 <= n < |records| && x in counting && 0 <= a < |counting[x]| &&
      ArIdAt(inp, records[n].start) == Some(x)) ==> records[n].start < counting[x][a].start
  }

  /** Every address event seen so far is completed, dropped at a reset, or pending, exactly once. */
  ghost predicate Conserved(inp: Inputs, order: seq<string>, counting: map<string, seq<Txn>>, records: seq<Record>,
                            dropped: seq<int>, i: int)
  {
    0 <= i <= |inp.ar| &&
    multiset(RecordStarts(records)) + multiset(dropped) + multiset(Pending(order, counting)) == multiset(inp.ar[..i])
  }

  /** The engine's invariant after `i` address events and `j` data beats. */
  ghost predicate Inv(inp: Inputs, counting: map<string, seq<Txn>>, order: seq<string>, records: seq<Record>,
                      dropped: seq<int>, i: int, j: int)
  {
    0 <= i <= |inp.ar| && 0 <= j <= |inp.r| && Keys(counting, order) && QueuesOk(inp, counting, i, j) &&
    RecordsOk(inp, records) && RecordsBefore(inp, records, i, j) && RecordsOrdered(inp, records) &&
    Behind(inp, records, counting) && Conserved(inp, order, counting, records, dropped, i)
  }

  lemma TxnOkLater(inp: Inputs, x: string, t: Txn, i: int, j: int, i2: int, j2: int)
    requires Sorted(inp) && TxnOk(inp, x, t, i, j) && i <= i2 <= |inp.ar| && j <= j2 <= |inp.r|
    ensures TxnOk(inp, x, t, i2, j2)
  {
    if i < i2 { assert inp.ar[i - 1] < inp.ar[i2 - 1]; }
    if t.firstData.Some? && j < j2 { assert inp.r[j - 1] < inp.r[j2 - 1]; }
  }

  lemma QueuesOkLater(inp: Inputs, counting: map<string, seq<Txn>>, i: int, j: int, i2: int, j2: int)
    requires Sorted(inp) && QueuesOk(inp, counting, i, j) && i <= i2 <= |inp.ar| && j <= j2 <= |inp.r|
    ensures QueuesOk(inp, counting, i2, j2)
  {
    forall x, a | x in counting && 0 <= a < |counting[x]| ensures TxnOk(inp, x, counting[x][a], i2, j2) {
      TxnOkLater(inp, x, counting[x][a], i, j, i2, j2);
    }
  }

  lemma RecordsBeforeLater(inp: Inputs, records: seq<Record>, i: int, j: int, i2: int, j2: int)
    requires Sorted(inp) && RecordsBefore(inp, records, i, j) && i <= i2 <= |inp.ar| && j <= j2 <= |inp.r|
    ensures RecordsBefore(inp, records, i2, j2)
  {
    if |records| > 0 {
      if i < i2 { assert inp.ar[i - 1] < inp.ar[i2 - 1]; }
      if j < j2 { assert inp.r[j - 1] < inp.r[j2 - 1]; }
      assert inp.ar[i - 1] <= inp.ar[i2 - 1] && inp.r[j - 1] <= inp.r[j2 - 1];
    }
  }

  /** The transaction address event `i` opens. */
  function OpenedAt(inp: Inputs, i: int): (t: Txn)
    requires 0 <= i < |inp.ar|
    ensures t.start == inp.ar[i] && t.firstData.None? && t.lastData.None?
    ensures i + 1 < |inp.ar| ==> t.next == inp.ar[i + 1]
    ensures i + 1 == |inp.ar| ==> t.next == inp.timeEnd
  {
    Opened(inp.ar[i], PeekAfter(inp.ar, i, inp.timeEnd))
  }

  lemma EnqueueConserved(inp: Inputs, counting: map<string, seq<Txn>>, order: seq<string>, records: seq<Record>,
                         dropped: seq<int>, i: int, id: string, t: Txn)
    requires Keys(counting, order) && Conserved(inp, order, counting, records, dropped, i) && i < |inp.ar| && t.start == inp.ar[i]
    ensures Conserved(inp, Enqueue(counting, order, id, t).1, Enqueue(counting, order, id, t).0, records, dropped, i + 1)
  {
    PendingEnqueue(counting, order, id, t);
    PrefixSnoc(inp.ar, i);
    MultisetAdd(multiset(RecordStarts(records)) + multiset(dropped), multiset(Pending(order, counting)),
                multiset(Pending(Enqueue(counting, order, id, t).1, Enqueue(counting, order, id, t).0)),
                multiset(inp.ar[..i]), multiset(inp.ar[..i + 1]), t.start);
  }

  lemma PrefixSnoc(s: seq<int>, i: int)
    requires 0 <= i < |s|
    ensures multiset(s[..i + 1]) == multiset(s[..i]) + multiset{s[i]}
  {
    assert s[..i + 1] == s[..i] + [s[i]];
  }

  lemma EnqueueQueues(inp: Inputs, counting: map<string, seq<Txn>>, order: seq<string>, i: int, j: int, id: string)
    requires Sorted(inp) && QueuesOk(inp, counting, i, j) && 0 <= i < |inp.ar| && 0 <= j <= |inp.r|
    requires ArIdAt(inp, inp.ar[i]) == Some(id)
    ensures QueuesOk(inp, Enqueue(counting, order, id, OpenedAt(inp, i)).0, i + 1, j)
  {
    var t := OpenedAt(inp, i);
    QueuesOkLater(inp, counting, i, j, i + 1, j);
    var q := QueueAt(counting, id);
    assert TxnOk(inp, id, t, i + 1, j);
    forall a | 0 <= a < |q| ensures q[a].start < t.start {
      assert TxnOk(inp, id, q[a], i, j);
      assert inp.ar[i - 1] < inp.ar[i];
    }
    assert QueueOk(inp, id, q + [t], i + 1, j);
  }

  lemma EnqueueBehind(inp: Inputs, records: seq<Record>, counting: map<string, seq<Txn>>, order: seq<string>,
                      i: int, j: int, id: string, t: Txn)
    requires Sorted(inp) && Behind(inp, records, counting) && RecordsBefore(inp, records, i, j) && 0 <= i < |inp.ar| && t.start == inp.ar[i]
    ensures Behind(inp, records, Enqueue(counting, order, id, t).0)
  {
    forall n | 0 <= n < |records| ensures records[n].start < t.start {
      assert inp.ar[i - 1] < inp.ar[i];
    }
  }

  /** Opening a transaction for address event `i`: `(c2, o2)` is the dictionary after the push. */
  lemma EnqueuePreserves(inp: Inputs, counting: map<string, seq<Txn>>, order: seq<string>, records: seq<Record>,
                         dropped: seq<int>, i: int, j: int, id: string, c2: map<string, seq<Txn>>, o2: seq<string>, i2: int)
    requires Sorted(inp) && Inv(inp, counting, order, records, dropped, i, j) && i < |inp.ar|
    requires ArIdAt(inp, inp.ar[i]) == Some(id)
    requires c2 == Enqueue(counting, order, id, OpenedAt(inp, i)).0 && o2 == Enqueue(counting, order, id, OpenedAt(inp, i)).1
    requires i2 == i + 1
    ensures Inv(inp, c2, o2, records, dropped, i2, j)
  {
    var t := OpenedAt(inp, i);
    EnqueueKeysOk(counting, order, id, t);
    EnqueueConserved(inp, counting, order, records, dropped, i, id, t);
    EnqueueQueues(inp, counting, order, i, j, id);
    EnqueueBehind(inp, records, counting, order, i, j, id, t);
    RecordsBeforeLater(inp, records, i, j, i + 1, j);
  }

  lemma MarkQueues(inp: Inputs, counting: map<string, seq<Txn>>, i: int, j: int, x: string)
    requires Sorted(inp) && QueuesOk(inp, counting, i, j) && 0 <= i <= |inp.ar| && 0 <= j < |inp.r|
    requires x in counting && counting[x] != []
    ensures QueuesOk(inp, counting[x := Marked(counting[x], inp.r[j])], i, j + 1)
  {
    QueuesOkLater(inp, counting, i, j, i, j + 1);
    var q := counting[x];
    var m := Marked(q, inp.r[j]);
    assert TxnOk(inp, x, q[0], i, j + 1);
    assert TxnOk(inp, x, m[0], i, j + 1);
    forall a | 0 < a < |m| ensures m[a] == q[a] { }
    assert QueueOk(inp, x, m, i, j + 1);
  }

  lemma MarkBehind(inp: Inputs, records: seq<Record>, counting: map<string, seq<Txn>>, x: string, read: int)
    requires Behind(inp, records, counting) && x in counting && counting[x] != []
    ensures Behind(inp, records, counting[x := Marked(counting[x], read)])
  {
    var q := counting[x];
    var m := Marked(q, read);
    assert forall a :: 0 <= a < |q| ==> m[a].start == q[a].start;
  }

  /** A beat `inp.r[j]` that hits the head of `x` without closing it. */
  lemma MarkPreserves(inp: Inputs, counting: map<string, seq<Txn>>, order: seq<string>, records: seq<Record>,
                      dropped: seq<int>, i: int, j: int, x: string)
    requires Sorted(inp) && Inv(inp, counting, order, records, dropped, i, j) && j < |inp.r|
    requires x in counting && counting[x] != []
    ensures Inv(inp, counting[x := Marked(counting[x], inp.r[j])], order, records, dropped, i, j + 1)
  {
    KeysUpdate(counting, order, x, Marked(counting[x], inp.r[j]));
    MarkQueues(inp, counting, i, j, x);
    MarkBehind(inp, records, counting, x, inp.r[j]);
    MarkedStarts(counting[x], inp.r[j]);
    PendingSameStarts(order, counting, x, Marked(counting[x], inp.r[j]));
    RecordsBeforeLater(inp, records, i, j, i, j + 1);
  }

  /** The record a closing beat produces for the head transaction. */
  function Complete(head: Txn, read: int, resp: string): (rec: Record)
    ensures rec.start == head.start && rec.next == head.next && rec.respTime == read && rec.lastData == read
    ensures rec.firstData == (if head.firstData.Some? then head.firstData.value else read) && rec.resp == resp
  {
    var t := MarkFirst(head, read);
    Record(t.start, read, read, t.firstData.value, resp, t.next)
  }

  /** The facts about the closing beat `inp.r[j]` that an engine has checked. */
  ghost predicate Completes(inp: Inputs, i: int, j: int, x: string, resp: string)
  {
    0 < i <= |inp.ar| && 0 <= j < |inp.r| &&
    RIdAt(inp, inp.r[j]) == Some(x) && LastAt(inp, inp.r[j]) == Some(true) && RespAt(inp, inp.r[j]) == Some(resp) &&
    inp.r[j] < PeekAfter(inp.ar, i - 1, inp.timeEnd) && NoneWithin(inp.rst, inp.ar[i - 1], inp.r[j])
  }

  lemma CompleteRecordOk(inp: Inputs, counting: map<string, seq<Txn>>, i: int, j: int, x: string, resp: string)
    requires Sorted(inp) && QueuesOk(inp, counting, i, j) && Completes(inp, i, j, x, resp)
    requires x in counting && counting[x] != []
    ensures RecordOk(inp, Complete(counting[x][0], inp.r[j], resp))
  {
    var head := counting[x][0];
    var rec := Complete(head, inp.r[j], resp);
    assert TxnOk(inp, x, head, i, j);
    if head.firstData.Some? { assert inp.r[j - 1] < inp.r[j]; }
    assert inp.r[j] in inp.r;
    assert rec.start <= inp.ar[i - 1];
  }

  lemma CompleteQueues(inp: Inputs, counting: map<string, seq<Txn>>, i: int, j: int, x: string)
    requires Sorted(inp) && QueuesOk(inp, counting, i, j) && 0 <= i <= |inp.ar| && 0 <= j < |inp.r|
    requires x in counting && counting[x] != []
    ensures QueuesOk(inp, counting[x := counting[x][1..]], i, j + 1)
  {
    QueuesOkLater(inp, counting, i, j, i, j + 1);
    var q := counting[x];
    assert QueueOk(inp, x, q, i, j + 1);
    forall a | 0 <= a < |q| - 1 ensures q[1..][a] == q[a + 1] { }
    assert QueueOk(inp, x, q[1..], i, j + 1);
  }

  lemma CompleteOrder(inp: Inputs, records: seq<Record>, counting: map<string, seq<Txn>>, i: int, j: int, x: string, resp: string)
    requires Sorted(inp) && QueuesOk(inp, counting, i, j) && Completes(inp, i, j, x, resp)
    requires RecordsBefore(inp, records, i, j) && RecordsOrdered(inp, records) && Behind(inp, records, counting)
    requires x in counting && counting[x] != []
    ensures var rs := records + [Complete(counting[x][0], inp.r[j], resp)];
            RecordsBefore(inp, rs, i, j + 1) && RecordsOrdered(inp, rs) && Behind(inp, rs, counting[x := counting[x][1..]])
  {
    var q := counting[x];
    var rec := Complete(q[0], inp.r[j], resp);
    var rs := records + [rec];
    var c: map<string, seq<Txn>> := counting[x := q[1..]];
    assert TxnOk(inp, x, q[0], i, j);
    RecordsBeforeLater(inp, records, i, j, i, j + 1);
    forall n | 0 <= n < |records| ensures records[n].lastData < inp.r[j] {
      assert inp.r[j - 1] < inp.r[j];
    }
    forall n | 0 <= n < |records| && ArIdAt(inp, records[n].start) == ArIdAt(inp, rec.start)
      ensures records[n].start < rec.start
    {
      assert ArIdAt(inp, records[n].start) == Some(x);
    }
    forall n: int, y: string, a: int | 0 <= n < |rs| && y in c && 0 <= a < |c[y]| && ArIdAt(inp, rs[n].start) == Some(y)
      ensures rs[n].start < c[y][a].start
    {
      if y == x {
        assert c[y][a] == q[a + 1];
        if n == |records| { assert rs[n].start == q[0].start; }
      } else if n == |records| {
        assert false;
      }
    }
  }

  lemma CompleteConserved(inp: Inputs, counting: map<string, seq<Txn>>, order: seq<string>, records: seq<Record>,
                          dropped: seq<int>, i: int, x: string, rec: Record)
    requires Keys(counting, order) && Conserved(inp, order, counting, records, dropped, i)
    requires x in counting && counting[x] != [] && rec.start == counting[x][0].start
    ensures Conserved(inp, order, counting[x := counting[x][1..]], records + [rec], dropped, i)
  {
    PendingPop(order, counting, x);
    RecordStartsSnoc(records, rec);
    MultisetMove(multiset(RecordStarts(records)) + multiset(dropped), multiset(RecordStarts(records + [rec])) + multiset(dropped),
                 multiset(Pending(order, counting)), multiset(Pending(order, counting[x := counting[x][1..]])),
                 multiset(inp.ar[..i]), rec.start);
  }

  /** A beat `inp.r[j]` that closes the head of `x`. */
  lemma CompletePreserves(inp: Inputs, counting: map<string, seq<Txn>>, order: seq<string>, records: seq<Record>,
                          dropped: seq<int>, i: int, j: int, x: string, resp: string)
    requires Sorted(inp) && Inv(inp, counting, order, records, dropped, i, j) && Completes(inp, i, j, x, resp)
    requires x in counting && counting[x] != []
    ensures Inv(inp, counting[x := counting[x][1..]], order, records + [Complete(counting[x][0], inp.r[j], resp)], dropped, i, j + 1)
  {
    KeysUpdate(counting, order, x, counting[x][1..]);
    CompleteRecordOk(inp, counting, i, j, x, resp);
    CompleteQueues(inp, counting, i, j, x);
    CompleteOrder(inp, records, counting, i, j, x, resp);
    CompleteConserved(inp, counting, order, records, dropped, i, x, Complete(counting[x][0], inp.r[j], resp));
  }

  /** A beat `inp.r[j]` consumed without touching any queue. */
  lemma SkipPreserves(inp: Inputs, counting: map<string, seq<Txn>>, order: seq<string>, records: seq<Record>,
                      dropped: seq<int>, i: int, j: int)
    requires Sorted(inp) && Inv(inp, counting, order, records, dropped, i, j) && j < |inp.r|
    ensures Inv(inp, counting, order, records, dropped, i, j + 1)
  {
    QueuesOkLater(inp, counting, i, j, i, j + 1);
    RecordsBeforeLater(inp, records, i, j, i, j + 1);
  }

  /** Clearing the dictionary at a reset moves everything pending to the dropped issue times. */
  lemma DropPreserves(inp: Inputs, counting: map<string, seq<Txn>>, order: seq<string>, records: seq<Record>,
                      dropped: seq<int>, i: int, j: int)
    requires Inv(inp, counting, order, records, dropped, i, j)
    ensures Inv(inp, map[], [], records, dropped + Pending(order, counting), i, j)
  {
    assert multiset(dropped + Pending(order, counting)) == multiset(dropped) + multiset(Pending(order, counting));
  }

  /** Once every address event is seen, each is completed, dropped or still pending. */
  lemma AllSeen(inp: Inputs, counting: map<string, seq<Txn>>, order: seq<string>, records: seq<Record>,
                dropped: seq<int>, i: int)
    requires Conserved(inp, order, counting, records, dropped, i) && i == |inp.ar|
    ensures multiset(RecordStarts(records)) + multiset(dropped) + multiset(Pending(order, counting)) == multiset(inp.ar)
  {
    assert inp.ar[..i] == inp.ar;
  }
}
