// Transactions in flight, queued per ID in a dictionary: the state the AXI matching engines share.
module Inflight {
  import opened Wrappers

  /**
   * A transaction in flight: its address time, the next address time, and its first and last
   * data beats once seen (only the write engine records the last one).
   */
  datatype Txn = Txn(start: int, next: int, firstData: Option<int>, lastData: Option<int>)

  /** One completed transaction, in the argument order of `add_transaction`. */
  datatype Record = Record(start: int, respTime: int, lastData: int, firstData: int, resp: string, next: int)

  /** A freshly opened transaction. */
  function Opened(start: int, next: int): (t: Txn)
    ensures t.start == start && t.next == next && t.firstData.None? && t.lastData.None?
  {
    Txn(start, next, None, None)
  }

  /** The queue under `key`, empty when the key is absent. */
  function QueueAt(counting: map<string, seq<Txn>>, key: string): seq<Txn>
  {
    if key in counting then counting[key] else []
  }

  /** The issue times still in flight, queue by queue in key order. */
  function Pending(order: seq<string>, counting: map<string, seq<Txn>>): seq<int>
  {
    if |order| == 0 then [] else Starts(QueueAt(counting, order[0])) + Pending(order[1..], counting)
  }

  function Starts(q: seq<Txn>): (r: seq<int>)
    ensures |r| == |q| && forall i :: 0 <= i < |q| ==> r[i] == q[i].start
  {
    if |q| == 0 then [] else [q[0].start] + Starts(q[1..])
  }

  function RecordStarts(rs: seq<Record>): (r: seq<int>)
    ensures |r| == |rs| && forall i :: 0 <= i < |rs| ==> r[i] == rs[i].start
  {
    if |rs| == 0 then [] else [rs[0].start] + RecordStarts(rs[1..])
  }

  function RespTimes(rs: seq<Record>): (r: seq<int>)
    ensures |r| == |rs| && forall i :: 0 <= i < |rs| ==> r[i] == rs[i].respTime
  {
    if |rs| == 0 then [] else [rs[0].respTime] + RespTimes(rs[1..])
  }

  predicate NoDuplicates(order: seq<string>)
  {
    forall a, b :: 0 <= a < b < |order| ==> order[a] != order[b]
  }

  /** The dictionary's keys are exactly the listed ones, each listed once. */
  ghost predicate Keys(counting: map<string, seq<Txn>>, order: seq<string>)
  {
    NoDuplicates(order) && forall x :: x in counting <==> x in order
  }

  predicate StartsIncreasing(q: seq<Txn>)
  {
    forall a, b :: 0 <= a < b < |q| ==> q[a].start < q[b].start
  }

  /** Dropping the first key keeps the keys distinct, and that key does not occur again. */
  lemma NoDuplicatesTail(order: seq<string>)
    requires NoDuplicates(order) && |order| > 0
    ensures NoDuplicates(order[1..]) && order[0] !in order[1..]
  {
    var rest := order[1..];
    forall a, b | 0 <= a < b < |rest| ensures rest[a] != rest[b] { assert rest[a] == order[a + 1] && rest[b] == order[b + 1]; }
    forall a | 0 <= a < |rest| ensures rest[a] != order[0] { assert rest[a] == order[a + 1]; }
  }

  /** Appending to one queue adds exactly that issue time to the pending ones. */
  lemma {:induction false} PendingAppend(order: seq<string>, counting: map<string, seq<Txn>>, x: string, t: Txn)
    requires NoDuplicates(order) && x in order && x in counting
    ensures multiset(Pending(order, counting[x := counting[x] + [t]])) == multiset(Pending(order, counting)) + multiset{t.start}
  {
    var rest := order[1..];
    var updated := counting[x := counting[x] + [t]];
    NoDuplicatesTail(order);
    if order[0] == x {
      PendingUnaffected(rest, counting, x, counting[x] + [t]);
      var pr := Pending(rest, counting);
      assert Starts(counting[x] + [t]) == Starts(counting[x]) + [t.start];
      assert Pending(order, updated) == (Starts(counting[x]) + [t.start]) + pr;
      assert Pending(order, counting) == Starts(counting[x]) + pr;
      SnocUnion(Starts(counting[x]), t.start, pr);
    } else {
      assert x in rest by {
        var a :| 0 <= a < |order| && order[a] == x;
        assert a > 0 && rest[a - 1] == x;
      }
      PendingAppend(rest, counting, x, t);
      var head := Starts(QueueAt(counting, order[0]));
      assert QueueAt(updated, order[0]) == QueueAt(counting, order[0]);
      assert Pending(order, updated) == head + Pending(rest, updated);
      assert Pending(order, counting) == head + Pending(rest, counting);
      assert multiset(head + Pending(rest, updated)) == multiset(head) + multiset(Pending(rest, updated));
    }
  }

  lemma SnocUnion(a: seq<int>, s: int, b: seq<int>)
    ensures multiset((a + [s]) + b) == multiset(a + b) + multiset{s}
  {
    assert multiset((a + [s]) + b) == multiset(a) + multiset{s} + multiset(b);
  }

  /** Popping the head of one queue removes exactly that issue time from the pending ones. */
  lemma {:induction false} PendingPop(order: seq<string>, counting: map<string, seq<Txn>>, x: string)
    requires NoDuplicates(order) && x in order && x in counting && counting[x] != []
    ensures multiset(Pending(order, counting[x := counting[x][1..]])) + multiset{counting[x][0].start} ==
            multiset(Pending(order, counting))
  {
    var rest := order[1..];
    var q := counting[x];
    var updated := counting[x := q[1..]];
    NoDuplicatesTail(order);
    if order[0] == x {
      PendingUnaffected(rest, counting, x, q[1..]);
      var pr := Pending(rest, counting);
      assert Starts(q) == [q[0].start] + Starts(q[1..]);
      assert Pending(order, updated) == Starts(q[1..]) + pr;
      assert Pending(order, counting) == ([q[0].start] + Starts(q[1..])) + pr;
      assert multiset(([q[0].start] + Starts(q[1..])) + pr) == multiset{q[0].start} + multiset(Starts(q[1..])) + multiset(pr);
    } else {
      assert x in rest by {
        var a :| 0 <= a < |order| && order[a] == x;
        assert a > 0 && rest[a - 1] == x;
      }
      PendingPop(rest, counting, x);
      var head := Starts(QueueAt(counting, order[0]));
      assert QueueAt(updated, order[0]) == QueueAt(counting, order[0]);
      assert Pending(order, updated) == head + Pending(rest, updated);
      assert Pending(order, counting) == head + Pending(rest, counting);
      assert multiset(head + Pending(rest, updated)) == multiset(head) + multiset(Pending(rest, updated));
    }
  }

  /** A queue whose key is not listed does not contribute to the pending issue times. */
  lemma {:induction false} PendingUnaffected(order: seq<string>, counting: map<string, seq<Txn>>, x: string, q: seq<Txn>)
    requires x !in order
    ensures Pending(order, counting[x := q]) == Pending(order, counting)
  {
    if |order| > 0 {
      assert order[0] != x;
      assert x !in order[1..] by {
        forall a | 0 <= a < |order[1..]| ensures order[1..][a] != x { assert order[1..][a] == order[a + 1]; }
      }
      assert QueueAt(counting[x := q], order[0]) == QueueAt(counting, order[0]);
      PendingUnaffected(order[1..], counting, x, q);
    }
  }

  /** Listing a fresh key last adds its queue's issue times at the end. */
  lemma {:induction false} PendingNewKey(order: seq<string>, counting: map<string, seq<Txn>>, x: string, q: seq<Txn>)
    requires x !in order
    ensures Pending(order + [x], counting[x := q]) == Pending(order, counting) + Starts(q)
  {
    if |order| == 0 {
      assert order + [x] == [x];
      assert [x][1..] == [];
    } else {
      assert (order + [x])[0] == order[0] && (order + [x])[1..] == order[1..] + [x];
      assert order[0] != x;
      assert x !in order[1..] by {
        forall a | 0 <= a < |order[1..]| ensures order[1..][a] != x { assert order[1..][a] == order[a + 1]; }
      }
      var head := Starts(QueueAt(counting, order[0]));
      assert QueueAt(counting[x := q], order[0]) == QueueAt(counting, order[0]);
      PendingNewKey(order[1..], counting, x, q);
      var rest := Pending(order[1..], counting);
      assert Pending(order + [x], counting[x := q]) == head + (rest + Starts(q));
      assert head + (rest + Starts(q)) == (head + rest) + Starts(q);
    }
  }

  /** Giving one queue new entries with the same issue times leaves the pending times as they were. */
  lemma {:induction false} PendingSameStarts(order: seq<string>, counting: map<string, seq<Txn>>, x: string, q: seq<Txn>)
    requires x in counting && Starts(q) == Starts(counting[x])
    ensures Pending(order, counting[x := q]) == Pending(order, counting)
  {
    if |order| > 0 {
      assert Starts(QueueAt(counting[x := q], order[0])) == Starts(QueueAt(counting, order[0]));
      PendingSameStarts(order[1..], counting, x, q);
    }
  }

  /** `push_back` on the queue of `id`, creating the queue (listed last) when the key is new. */
  function Enqueue(counting: map<string, seq<Txn>>, order: seq<string>, id: string, t: Txn): (map<string, seq<Txn>>, seq<string>)
  {
    (counting[id := QueueAt(counting, id) + [t]], if id in counting then order else order + [id])
  }

  /** The first transaction under a fresh ID starts a queue of its own, listed as the only key. */
  lemma EnqueueFirst(x: string, t: Txn)
    ensures Enqueue(map[], [], x, t) == (map[x := [t]], [x])
  {
    var e := Enqueue(map[], [], x, t);
    assert QueueAt(map[], x) + [t] == [t];
    assert e.0.Keys == {x} && e.0[x] == [t];
    assert e.0 == map[x := [t]];
    assert e.1 == [] + [x] == [x];
  }

  /** A transaction under the only ID in flight joins the back of its queue; the key list stays as it is. */
  lemma EnqueueBehindOnly(x: string, q: seq<Txn>, t: Txn)
    ensures Enqueue(map[x := q], [x], x, t) == (map[x := q + [t]], [x])
  {
    var e := Enqueue(map[x := q], [x], x, t);
    assert e.0.Keys == {x} && e.0[x] == q + [t];
    assert e.0 == map[x := q + [t]];
  }

  /** `Enqueue` adds exactly the new issue time to the pending ones. */
  lemma PendingEnqueue(counting: map<string, seq<Txn>>, order: seq<string>, id: string, t: Txn)
    requires Keys(counting, order)
    ensures multiset(Pending(Enqueue(counting, order, id, t).1, Enqueue(counting, order, id, t).0)) ==
            multiset(Pending(order, counting)) + multiset{t.start}
  {
    if id in counting {
      PendingAppend(order, counting, id, t);
    } else {
      PendingNewKey(order, counting, id, [] + [t]);
      assert Starts([] + [t]) == [t.start];
    }
  }

  lemma EnqueueKeysOk(counting: map<string, seq<Txn>>, order: seq<string>, id: string, t: Txn)
    requires Keys(counting, order)
    ensures Keys(Enqueue(counting, order, id, t).0, Enqueue(counting, order, id, t).1)
  {
    if id !in counting { NewKeyDistinct(order, id); }
  }

  lemma NewKeyDistinct(order: seq<string>, id: string)
    requires NoDuplicates(order) && id !in order
    ensures NoDuplicates(order + [id])
  {
    var o := order + [id];
    forall a, b | 0 <= a < b < |o| ensures o[a] != o[b] {
      assert o[a] == order[a];
    }
  }

  lemma KeysUpdate(counting: map<string, seq<Txn>>, order: seq<string>, x: string, q: seq<Txn>)
    requires Keys(counting, order) && x in counting
    ensures Keys(counting[x := q], order)
  {
  }

  /** A data beat records itself as the transaction's first data, once. */
  function MarkFirst(t: Txn, read: int): (r: Txn)
    ensures r.start == t.start && r.next == t.next && r.lastData == t.lastData && r.firstData.Some?
    ensures t.firstData.Some? ==> r.firstData == t.firstData
    ensures t.firstData.None? ==> r.firstData == Some(read)
  {
    if t.firstData.None? then t.(firstData := Some(read)) else t
  }

  /** The queue after a beat that hits its head. */
  function Marked(q: seq<Txn>, read: int): seq<Txn>
    requires q != []
  {
    [MarkFirst(q[0], read)] + q[1..]
  }

  lemma MarkedStarts(q: seq<Txn>, read: int)
    requires q != []
    ensures Starts(Marked(q, read)) == Starts(q)
  {
    var m := Marked(q, read);
    assert forall a :: 0 <= a < |q| ==> m[a].start == q[a].start;
  }

  /** Appending a record adds its response time to the multiset of response times. */
  lemma RespTimesSnoc(records: seq<Record>, rec: Record)
    ensures multiset(RespTimes(records + [rec])) == multiset(RespTimes(records)) + multiset{rec.respTime}
  {
    assert RespTimes(records + [rec]) == RespTimes(records) + [rec.respTime];
  }

  lemma RecordStartsSnoc(records: seq<Record>, rec: Record)
    ensures multiset(RecordStarts(records + [rec])) == multiset(RecordStarts(records)) + multiset{rec.start}
  {
    assert RecordStarts(records + [rec]) == RecordStarts(records) + [rec.start];
  }

  lemma MultisetAdd(done: multiset<int>, before: multiset<int>, after: multiset<int>,
                    seen: multiset<int>, seen2: multiset<int>, x: int)
    requires done + before == seen && after == before + multiset{x} && seen2 == seen + multiset{x}
    ensures done + after == seen2
  {
  }

  lemma MultisetMove(done: multiset<int>, done2: multiset<int>, before: multiset<int>, after: multiset<int>,
                     seen: multiset<int>, x: int)
    requires done + before == seen && after + multiset{x} == before && done2 == done + multiset{x}
    ensures done2 + after == seen
  {
  }
}
