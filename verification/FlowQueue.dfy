/** Which flow the application serves next: the register for a newly announced flow,
    the FIFO of active flows, and the flow in service. */
module FlowQueue {
  import opened Streams

  datatype Place = Empty | Holds(id: nat)

  /** The scheduler's state: FIFO, new-flow register, and the flow in service. */
  datatype Queue = Queue(fifo: seq<nat>, pending: Place, serving: Place)

  /** All announcements, and everything that ever entered and left the FIFO. */
  datatype Past = Past(announced: set<nat>, enq: seq<nat>, deq: seq<nat>)

  function Ids(s: Place): set<nat> {
    if s.Holds? then {s.id} else {}
  }

  function Elements(s: seq<nat>): set<nat> {
    set x | x in s
  }

  ghost predicate Distinct(s: seq<nat>) {
    forall i, j :: 0 <= i < j < |s| ==> s[i] != s[j]
  }

  /** Every announced flow is in exactly one place, once; and the FIFO is a FIFO. */
  ghost predicate QueueOk(q: Queue, h: Past, M: nat) {
    && (forall x :: x in h.announced ==> x < M)
    && Distinct(q.fifo)
    && Ids(q.pending) !! Ids(q.serving) && Ids(q.pending) !! Elements(q.fifo) && Ids(q.serving) !! Elements(q.fifo)
    && Elements(q.fifo) + Ids(q.pending) + Ids(q.serving) == h.announced
    && h.enq == h.deq + q.fifo
  }

  /** Pigeonhole. */
  lemma {:induction false} DistinctBound(s: seq<nat>, M: nat)
    requires Distinct(s) && forall x :: x in s ==> x < M
    ensures |s| <= M
  {
    assert |s| > 0 ==> s[0] in s;
    if M == 0 {
      assert s == [];
    } else if (M - 1) in s {
      var i :| 0 <= i < |s| && s[i] == M - 1;
      var t := s[..i] + s[i + 1..];
      forall x | x in t
        ensures x < M - 1
      {
        var k :| 0 <= k < |t| && t[k] == x;
        var j := if k < i then k else k + 1;
        assert x == s[j] && s[j] in s;
        assert s[j] != s[i] by {
          if k < i {
            assert s[k] != s[i];
          } else {
            assert s[i] != s[k + 1];
          }
        }
      }
      DistinctBound(t, M - 1);
    } else {
      DistinctBound(s, M - 1);
    }
  }

  /** The FIFO has room whenever something is about to enter it. */
  lemma NeverFull(q: Queue, h: Past, M: nat)
    requires QueueOk(q, h, M) && (q.pending.Holds? || q.serving.Holds?)
    ensures |q.fifo| < M
  {
    var x := if q.pending.Holds? then q.pending.id else q.serving.id;
    var s := q.fifo + [x];
    assert x in Ids(q.pending) + Ids(q.serving);
    assert x !in Elements(q.fifo);
    forall y | y in s
      ensures y < M
    {
      assert y in Elements(q.fifo) || y == x;
    }
    DistinctBound(s, M);
  }

  /** The flow that enters the FIFO in a cycle: a new flow goes first. */
  function Entering(q: Queue, requeue: bool): Place {
    if q.pending.Holds? then q.pending else if requeue then q.serving else Empty
  }

  /** One cycle. `take` dequeues into service, `requeue` asks to put the flow in service
      back, `notif` announces a flow; `M` is the FIFO's capacity. */
  function NextQueue(q: Queue, take: bool, requeue: bool, notif: Place, M: nat): Queue
    requires take ==> q.fifo != []
  {
    var e := Entering(q, requeue);
    var rdy := |q.fifo| < M;
    var back := requeue && !q.pending.Holds? && rdy;
    Queue((if take then q.fifo[1..] else q.fifo) + (if e.Holds? && rdy then [e.id] else []),
          notif,
          if take then Holds(q.fifo[0]) else if back then Empty else q.serving)
  }

  function NextPast(q: Queue, h: Past, take: bool, requeue: bool, notif: Place, M: nat): Past
    requires take ==> q.fifo != []
  {
    var e := Entering(q, requeue);
    Past(h.announced + Ids(notif),
         h.enq + (if e.Holds? && |q.fifo| < M then [e.id] else []),
         h.deq + (if take then [q.fifo[0]] else []))
  }

  predicate Legal(q: Queue, h: Past, take: bool, requeue: bool, notif: Place, M: nat) {
    && (take ==> q.fifo != [] && q.serving.Empty?)
    && (requeue ==> q.serving.Holds?)
    && (notif.Holds? ==> notif.id < M && notif.id !in h.announced)
  }

  lemma TakeFirst(fifo: seq<nat>)
    requires fifo != [] && Distinct(fifo)
    ensures Distinct(fifo[1..]) && Elements(fifo) == Elements(fifo[1..]) + {fifo[0]} && fifo[0] !in Elements(fifo[1..])
  {
    forall x | x in fifo
      ensures x in fifo[1..] || x == fifo[0]
    {
      var i :| 0 <= i < |fifo| && fifo[i] == x;
      if i > 0 {
        assert fifo[1..][i - 1] == x;
      }
    }
  }

  lemma PutLast(fifo: seq<nat>, x: nat)
    requires Distinct(fifo) && x !in Elements(fifo)
    ensures Distinct(fifo + [x]) && Elements(fifo + [x]) == Elements(fifo) + {x}
  {
  }

  lemma TakeKeeps(q: Queue, h: Past, M: nat)
    requires QueueOk(q, h, M) && q.fifo != [] && q.serving.Empty?
    ensures QueueOk(q.(fifo := q.fifo[1..], serving := Holds(q.fifo[0])), h.(deq := h.deq + [q.fifo[0]]), M)
  {
    TakeFirst(q.fifo);
    hide Distinct, Elements;
    Assoc(h.deq, [q.fifo[0]], q.fifo[1..]);
    assert q.fifo == [q.fifo[0]] + q.fifo[1..];
  }

  /** Either the new flow or the flow in service enters the FIFO. */
  lemma EnterKeeps(q: Queue, h: Past, x: nat, first: bool, M: nat)
    requires QueueOk(q, h, M) && (if first then q.pending else q.serving) == Holds(x)
    ensures QueueOk(if first then q.(fifo := q.fifo + [x], pending := Empty) else q.(fifo := q.fifo + [x], serving := Empty),
                    h.(enq := h.enq + [x]), M)
  {
    assert x in Ids(if first then q.pending else q.serving);
    PutLast(q.fifo, x);
    hide Distinct, Elements;
    Assoc(h.deq, q.fifo, [x]);
  }

  lemma NotifKeeps(q: Queue, h: Past, x: nat, M: nat)
    requires QueueOk(q, h, M) && q.pending.Empty? && x < M && x !in h.announced
    ensures QueueOk(q.(pending := Holds(x)), h.(announced := h.announced + {x}), M)
  {
    hide Distinct, Elements;
  }

  /** Every cycle keeps every announced flow in exactly one place. */
  lemma QueueKeeps(q: Queue, h: Past, take: bool, requeue: bool, notif: Place, M: nat)
    requires QueueOk(q, h, M) && Legal(q, h, take, requeue, notif, M)
    ensures QueueOk(NextQueue(q, take, requeue, notif, M), NextPast(q, h, take, requeue, notif, M), M)
    ensures Entering(q, requeue).Holds? ==> |q.fifo| < M
  {
    var e := Entering(q, requeue);
    if e.Holds? {
      NeverFull(q, h, M);
    }
    hide QueueOk;
    var q1, h1 := q, h;
    if take {
      TakeKeeps(q, h, M);
      q1, h1 := q.(fifo := q.fifo[1..], serving := Holds(q.fifo[0])), h.(deq := h.deq + [q.fifo[0]]);
    }
    if e.Holds? {
      EnterKeeps(q1, h1, e.id, q.pending.Holds?, M);
      q1 := if q.pending.Holds? then q1.(fifo := q1.fifo + [e.id], pending := Empty)
            else q1.(fifo := q1.fifo + [e.id], serving := Empty);
      h1 := h1.(enq := h1.enq + [e.id]);
    }
    if notif.Holds? {
      NotifKeeps(q1, h1, notif.id, M);
      q1, h1 := q1.(pending := notif), h1.(announced := h1.announced + {notif.id});
    }
    var q2, h2 := NextQueue(q, take, requeue, notif, M), NextPast(q, h, take, requeue, notif, M);
    assert q2.fifo == q1.fifo && q2 == q1;
    assert h2.announced == h1.announced && h2.enq == h1.enq && h2.deq == h1.deq;
  }

  /** Position in the queue is the number of dequeues to wait: in any later state of the
      same run, once that many more dequeues have happened, the flow has been served. */
  lemma ServedInTurn(q: Queue, h: Past, h1: Past, q1: Queue, M: nat, i: nat)
    requires QueueOk(q, h, M) && QueueOk(q1, h1, M) && h.enq <= h1.enq && h.deq <= h1.deq
    requires i < |q.fifo| && |h.deq| + i < |h1.deq|
    ensures h1.deq[|h.deq| + i] == q.fifo[i]
  {
    assert h1.enq[|h.deq| + i] == h.enq[|h.deq| + i];
  }
}
