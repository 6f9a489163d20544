/** The RPC echo application among the engines that move its ring pointers: every
    interleaving of application cycles with cycles of the receive pipeline, the payload
    copier and the transmit side. */
module RpcEcho {
  import opened Streams
  import opened Modular
  import opened RecvFlow
  import opened RpcApp
  import opened FlowQueue
  import Cp = PayloadCopier

  /** The counters behind every flow's pointers and behind the application's snapshots. */
  datatype Shadow = Shadow(counts: map<nat, Counts>, snap: Snap)

  /** The handshakes of application and copier for what they have in hand. */
  datatype Courses = Courses(app: seq<Event>, copier: seq<Cp.Event>)

  function QueueOf(app: App, fifo: seq<nat>, pending: Place): Queue {
    Queue(fifo, pending, if app.st == Ready then Empty else Holds(app.cur))
  }

  /** A flow the application is not serving. */
  ghost predicate Resting(p: Ptrs, c: Counts, z: Sizes) {
    FlowOk(p, c, z) && Consumed(c, false)
  }

  ghost predicate FlowsOk(flows: map<nat, Ptrs>, app: App, g: Shadow, z: Sizes, M: nat) {
    && RegsOk(app, z) && flows.Keys == g.counts.Keys && (forall id: nat :: id < M <==> id in flows)
    && (app.st != Ready ==> app.cur in flows && Serving(app, g.snap, flows[app.cur], g.counts[app.cur], z))
    && (forall id :: id in flows && (app.st == Ready || id != app.cur) ==> Resting(flows[id], g.counts[id], z))
  }

  lemma EachFlow(flows: map<nat, Ptrs>, app: App, g: Shadow, z: Sizes, M: nat, id: nat)
    requires FlowsOk(flows, app, g, z, M) && id < M
    ensures id in flows && id in g.counts && SizesOk(z) && FlowOk(flows[id], g.counts[id], z)
  {
    hide FlowOk, Consumed, Phase;
  }

  /** The other engines leave the application's own pointers alone and move theirs forward. */
  predicate EngineMoves(p: Ptrs, c: Counts, p1: Ptrs, c1: Counts) {
    && p1.rxHead == p.rxHead && p1.txTail == p.txTail
    && c1.S == c.S && c1.iss == c.iss && c1.head == c.head && c1.txTail == c.txTail && c1.served == c.served
    && c.commit <= c1.commit && (c1.clean ==> c.clean && c.txHead <= c1.txHead)
  }

  /** A step of another engine on flow `id`. */
  lemma EngineKeeps(flows: map<nat, Ptrs>, app: App, g: Shadow, z: Sizes, M: nat, id: nat, p1: Ptrs, c1: Counts)
    requires FlowsOk(flows, app, g, z, M) && id in flows && FlowOk(p1, c1, z)
    requires EngineMoves(flows[id], g.counts[id], p1, c1)
    ensures FlowsOk(flows[id := p1], app, g.(counts := g.counts[id := c1]), z, M)
  {
    hide FlowOk, Serving, RegsOk, Resting, Start, Replied;
    if app.st != Ready && id == app.cur {
      SnapshotsAge(app, g.snap, flows[id], g.counts[id], p1, c1, z);
    } else {
      RestingAges(flows[id], g.counts[id], p1, c1, z);
    }
  }

  lemma RestingAges(p: Ptrs, c: Counts, p1: Ptrs, c1: Counts, z: Sizes)
    requires Resting(p, c, z) && FlowOk(p1, c1, z)
    requires c1.S == c.S && c1.iss == c.iss && c1.head == c.head && c1.txTail == c.txTail && c1.served == c.served
    ensures Resting(p1, c1, z)
  {
    hide FlowOk;
  }

  /** The application takes the next flow. */
  lemma TakeFlow(flows: map<nat, Ptrs>, app: App, g: Shadow, z: Sizes, M: nat, id: nat)
    requires FlowsOk(flows, app, g, z, M) && app.st == Ready && id < M
    ensures FlowsOk(flows, app.(st := RxPtrsReq, cur := id), g, z, M)
  {
    hide FlowOk, Consumed;
  }

  /** The application's own cycle on the flow it serves. */
  lemma ServeKeeps(flows: map<nat, Ptrs>, app: App, g: Shadow, z: Sizes, M: nat, go: bool)
    requires FlowsOk(flows, app, g, z, M) && app.st != Ready
    ensures app.cur in flows && |flows[app.cur].ring| == z.R
    ensures var p, c := flows[app.cur], g.counts[app.cur];
      FlowsOk(flows[app.cur := NextPtrs(app, go, p, z)], NextApp(app, go, p, z),
              g.(counts := g.counts[app.cur := NextCounts(app, go, c)], snap := NextSnap(app, go, c, g.snap)), z, M)
  {
    hide FlowOk, Serving, Consumed, Resting, NextPtrs, NextCounts, NextSnap, HeaderBytes;
    var p, c := flows[app.cur], g.counts[app.cur];
    AppKeeps(app, go, g.snap, p, c, z);
    var a1, p1, c1 := NextApp(app, go, p, z), NextPtrs(app, go, p, z), NextCounts(app, go, c);
    assert a1.cur == app.cur;
    ServingRests(a1, NextSnap(app, go, c, g.snap), p1, c1, z);
    hide NextApp;
  }

  lemma ServingRests(a: App, s: Snap, p: Ptrs, c: Counts, z: Sizes)
    requires Serving(a, s, p, c, z)
    ensures RegsOk(a, z) && (a.st == Ready ==> Resting(p, c, z))
  {
    hide FlowOk, Consumed, Phase;
  }

  /** What a cycle of the application may do to a flow's counters. */
  predicate AppMoves(c: Counts, c1: Counts) {
    && c1 == c.(head := c1.head, txTail := c1.txTail, served := c1.served)
    && c.head <= c1.head && c.txTail <= c1.txTail && c.served <= c1.served
  }

  function NewPtrs(irs: nat, iss: nat, ring: seq<byte>, z: Sizes): Ptrs
    requires SizesOk(z)
  {
    Ptrs(Word(irs, SEQ), 0, 0, 0, 0, Word(iss, 2 * z.T), Word(iss, 2 * z.T), Word(iss, SEQ), Word(iss, SEQ), [], ring)
  }

  function NewCounts(S: seq<byte>, irs: nat, iss: nat): Counts {
    Counts(S, irs, iss, 0, 0, 0, iss, iss, iss, [], [], 0, true)
  }

  lemma NewFlow(S: seq<byte>, irs: nat, iss: nat, ring: seq<byte>, z: Sizes)
    requires SizesOk(z) && |ring| == z.R && |S| < SEQ
    ensures Resting(NewPtrs(irs, iss, ring, z), NewCounts(S, irs, iss), z)
  {
    Small(0, 2 * z.R);
    hide Word;
  }

  function NewCopier(): Cp.Copier {
    Cp.Copier(Cp.CpReady, Cp.Entry(0, false, []), 0, 0)
  }

  function NewApp(): App {
    App(Ready, 0, 0, 0, 0, 0, 0, 0, 0)
  }

  lemma NewSystem(z: Sizes, M: nat, ring: seq<byte>, streams: seq<seq<byte>>, irs: seq<nat>, iss: seq<nat>,
                  blank: map<nat, Ptrs>, counts: map<nat, Counts>)
    requires SizesOk(z) && |ring| == z.R && |streams| == |irs| == |iss| == M
    requires forall i :: 0 <= i < M ==> |streams[i]| < SEQ
    requires blank == map id: nat | 0 <= id < M :: NewPtrs(irs[id], iss[id], ring, z)
    requires counts == map id: nat | 0 <= id < M :: NewCounts(streams[id], irs[id], iss[id])
    ensures FlowsOk(blank, NewApp(), Shadow(counts, Snap(0, 0, 0)), z, M)
    ensures Cp.PipeOk(blank, counts, NewCopier(), [], z)
  {
    hide Resting, Word, Serving;
    forall id | 0 <= id < M
      ensures Resting(blank[id], counts[id], z)
    {
      NewFlow(streams[id], irs[id], iss[id], ring, z);
    }
    assert blank.Keys == counts.Keys;
    NewPipe(blank, counts, z);
    hide Cp.PipeOk, NewPtrs, NewCounts;
  }

  lemma NewPipe(flows: map<nat, Ptrs>, counts: map<nat, Counts>, z: Sizes)
    requires flows.Keys == counts.Keys && forall id :: id in counts ==> counts[id].commit == 0 && counts[id].delivered == []
    ensures Cp.PipeOk(flows, counts, NewCopier(), [], z)
  {
  }

  lemma EmptyQueue(M: nat)
    ensures QueueOk(Queue([], Empty, Empty), Past({}, [], []), M)
  {
    assert Elements([]) == {};
  }

  lemma HeadsMatch(p: Ptrs, c: Counts, z: Sizes)
    requires FlowOk(p, c, z)
    ensures |c.heads| == |p.heads|
  {
  }

  lemma AllRings(flows: map<nat, Ptrs>, app: App, g: Shadow, z: Sizes, M: nat)
    requires FlowsOk(flows, app, g, z, M)
    ensures forall id :: id in flows ==> SizesOk(z) && |flows[id].ring| == z.R
  {
    forall id | id in flows
      ensures SizesOk(z) && |flows[id].ring| == z.R
    {
      EachFlow(flows, app, g, z, M, id);
      Cp.RingSizes(flows[id], g.counts[id], z);
    }
  }

  class Rpc {
    const z: Sizes
    const M: nat
    const turns: nat
    var flows: map<nat, Ptrs>
    var app: App
    var fifo: seq<nat>
    var pending: Place
    var cp: Cp.Copier
    var storeQ: seq<Cp.Entry>
    ghost var g: Shadow
    ghost var past: Past
    ghost var courses: Courses

    ghost predicate Valid()
      reads this
    {
      && FlowsOk(flows, app, g, z, M) && QueueOk(QueueOf(app, fifo, pending), past, M)
      && Cp.PipeOk(flows, g.counts, cp, storeQ, z) && Wraps(z.T, turns)
      && CourseOk(app, courses.app) && Cp.CourseOk(cp, courses.copier)
    }

    /** All flows before their first byte; `2 * z.T * turns` is the sequence space. */
    constructor (z: Sizes, M: nat, turns: nat, ring: seq<byte>, ghost streams: seq<seq<byte>>, irs: seq<nat>, iss: seq<nat>)
      requires SizesOk(z) && Wraps(z.T, turns) && |ring| == z.R && |streams| == |irs| == |iss| == M
      requires forall i :: 0 <= i < M ==> |streams[i]| < SEQ
      ensures Valid() && this.z == z && this.M == M && this.turns == turns && past == Past({}, [], []) && app.st == Ready
      ensures forall id: nat :: id < M ==> id in g.counts && g.counts[id] == NewCounts(streams[id], irs[id], iss[id])
      ensures forall id: nat :: id < M ==> g.counts[id].clean && g.counts[id].S == streams[id] && g.counts[id].served == 0
    {
      var blank := map id: nat | 0 <= id < M :: NewPtrs(irs[id], iss[id], ring, z);
      ghost var counts := map id: nat | 0 <= id < M :: NewCounts(streams[id], irs[id], iss[id]);
      NewSystem(z, M, ring, streams, irs, iss, blank, counts);
      EmptyQueue(M);
      hide QueueOk, FlowsOk, Cp.PipeOk;
      this.z, this.M, this.turns := z, M, turns;
      flows, app, fifo, pending := blank, NewApp(), [], Empty;
      cp, storeQ := NewCopier(), [];
      g, past, courses := Shadow(counts, Snap(0, 0, 0)), Past({}, [], []), Courses([], []);
    }

    /** A step of another engine replaces what is stored for one flow. */
    method Update(id: nat, p1: Ptrs, ghost c1: Counts, cp1: Cp.Copier, q1: seq<Cp.Entry>, ghost es: seq<Cp.Event>)
      requires Valid() && id in flows && id in g.counts && FlowOk(p1, c1, z) && EngineMoves(flows[id], g.counts[id], p1, c1)
      requires Cp.PipeOk(flows[id := p1], g.counts[id := c1], cp1, q1, z) && Cp.CourseOk(cp1, es)
      modifies this
      ensures Valid() && Rest(old(app), old(fifo), old(pending), old(g), old(past), old(courses.app)) && cp == cp1 && storeQ == q1 && courses.copier == es
      ensures flows == old(flows)[id := p1] && g.counts == old(g.counts)[id := c1]
    {
      hide CourseOk, Cp.CourseOk, FlowOk, QueueOk, FlowsOk, Cp.PipeOk;
      EngineKeeps(flows, app, g, z, M, id, p1, c1);
      flows, g := flows[id := p1], g.(counts := g.counts[id := c1]);
      courses := courses.(copier := es);
      cp, storeQ := cp1, q1;
    }

    /** The receive pipeline reads the head pointer for a packet of flow `id`. */
    method ReadStage(id: nat)
      requires Valid() && id < M
      modifies this
      ensures Valid() && Rest(old(app), old(fifo), old(pending), old(g), old(past), old(courses.app)) && cp == old(cp) && storeQ == old(storeQ)
      ensures id in old(flows) && id in g.counts && id in old(g.counts)
      ensures flows == old(flows)[id := ReadHead(old(flows)[id])]
      ensures g.counts == old(g.counts)[id := old(g.counts)[id].(heads := old(g.counts)[id].heads + [old(g.counts)[id].head])]
    {
      hide CourseOk, Cp.CourseOk, FlowOk, QueueOk, FlowsOk, Cp.PipeOk;
      EachFlow(flows, app, g, z, M, id);
      ReadHeadKeeps(flows[id], g.counts[id], z);
      ghost var c1 := g.counts[id].(heads := g.counts[id].heads + [g.counts[id].head]);
      Cp.PipeSame(flows, g.counts, cp, storeQ, z, id, ReadHead(flows[id]), c1);
      Update(id, ReadHead(flows[id]), c1, cp, storeQ, courses.copier);
    }

    /** The receive pipeline decides about a packet, any slice of the peer's stream, and
        queues its payload with the decision. */
    method Receive(id: nat, pkt: Packet, ghost off: nat) returns (accept: bool)
      requires Valid() && id < M && id in flows && |flows[id].heads| > 0
      requires pkt.val ==> id in g.counts && SliceOf(pkt, g.counts[id], off)
      modifies this
      ensures Valid() && Rest(old(app), old(fifo), old(pending), old(g), old(past), old(courses.app)) && id in old(g.counts) && |old(g.counts)[id].heads| > 0
      ensures accept <==> (pkt.val && off == old(g.counts)[id].tail &&
                           off + |pkt.payload| <= old(g.counts)[id].heads[0] + z.R)
      ensures g.counts == old(g.counts)[id := Counted(old(g.counts)[id], pkt, accept)]
      ensures cp == old(cp) && storeQ == old(storeQ) + Maybe(|pkt.payload| > 0, Cp.Entry(id, accept, pkt.payload))
      // the window advertised next is the space above the head snapshot, before this packet
      ensures id in old(flows) && id in flows && flows == old(flows)[id := flows[id]] && flows[id].ring == old(flows)[id].ring
      ensures flows[id].wnd == old(g.counts)[id].heads[0] + z.R - old(g.counts)[id].tail
    {
      hide FlowOk, QueueOk, FlowsOk, Plus, Compute, SliceOf, Cp.PipeOk;
      EachFlow(flows, app, g, z, M, id);
      var p := flows[id];
      AcceptIff(p, g.counts[id], z, pkt, off);
      PacketKeeps(p, g.counts[id], z, pkt, off);
      HeadsMatch(p, g.counts[id], z);
      accept := Compute(p.ack, p.rxTail, p.heads[0], pkt, z.R).accept;
      ghost var c1 := Counted(g.counts[id], pkt, accept);
      Cp.PipeReceive(flows, g.counts, cp, storeQ, z, id, Packeted(p, pkt, z), pkt, accept);
      Update(id, Packeted(p, pkt, z), c1, cp, storeQ + Maybe(|pkt.payload| > 0, Cp.Entry(id, accept, pkt.payload)), courses.copier);
    }

    /** One clock edge of the payload copier; `go` is the handshake its state waits for. */
    method CopierStep(go: bool)
      requires Valid()
      modifies this
      ensures Valid() && Rest(old(app), old(fifo), old(pending), old(g), old(past), old(courses.app))
      ensures !Cp.Busy(old(cp)) ==> flows == old(flows) && g.counts == old(g.counts)
      // the handshakes of the entry in hand, which `Valid` says are complete and in order
      ensures courses.copier == Cp.NextCourse(old(cp), old(storeQ), go, old(courses.copier))
      ensures !Cp.Busy(old(cp)) ==> forall p :: cp == Cp.NextCopier(old(cp), old(storeQ), go, p)
      ensures storeQ == Cp.NextQueue(old(cp), old(storeQ))
      // a busy copier works on the flow of its entry, and its commit moves by the whole payload
      ensures Cp.Busy(old(cp)) ==>
        && old(cp).entry.id in old(flows) && old(cp).entry.id in old(g.counts)
        && SizesOk(z) && |old(flows)[old(cp).entry.id].ring| == z.R
      ensures Cp.Busy(old(cp)) ==>
        var id := old(cp).entry.id;
        && cp == Cp.NextCopier(old(cp), old(storeQ), go, old(flows)[id])
        && flows == old(flows)[id := Cp.NextFlow(old(cp), go, old(flows)[id], z)]
        && g.counts == old(g.counts)[id := Cp.NextCommit(old(cp), go, old(g.counts)[id])]
      // progress
      ensures old(cp).st != Cp.CpReady ==> if go then Cp.Rank(cp) < Cp.Rank(old(cp)) else cp == old(cp)
    {
      hide CourseOk, Cp.CourseOk, FlowOk, QueueOk, FlowsOk, Cp.PipeOk, Cp.NextCopier, Cp.NextFlow, Cp.NextCommit, Cp.NextQueue, Cp.Rank;
      if Cp.Busy(cp) {
        CopierFlow(flows, app, g, cp, storeQ, z, M);
        var id := cp.entry.id;
        Cp.PipeCycle(flows, g.counts, cp, storeQ, z, go);
        CommitMoves(cp, go, flows[id], g.counts[id], z);
        Cp.RankFalls(cp, storeQ, go, flows[id]);
        Cp.CourseKeeps(cp, storeQ, go, flows[id], courses.copier);
        NoTake(cp, storeQ);
        Update(id, Cp.NextFlow(cp, go, flows[id], z), Cp.NextCommit(cp, go, g.counts[id]),
               Cp.NextCopier(cp, storeQ, go, flows[id]), storeQ, Cp.NextCourse(cp, storeQ, go, courses.copier));
      } else {
        AllRings(flows, app, g, z, M);
        var any := Ptrs(0, 0, 0, 0, 0, 0, 0, 0, 0, [], []);
        Cp.PipeTake(flows, g.counts, cp, storeQ, z, go, any);
        IdleCopier(cp, storeQ, go, any);
        Cp.CourseKeeps(cp, storeQ, go, any, courses.copier);
        if cp.st != Cp.CpReady {
          Cp.RankFalls(cp, storeQ, go, any);
        }
        courses := courses.(copier := Cp.NextCourse(cp, storeQ, go, courses.copier));
        cp, storeQ := Cp.NextCopier(cp, storeQ, go, any), Cp.NextQueue(cp, storeQ);
      }
    }

    /** A packet with any acknowledgement number at all. */
    method Ack(id: nat, pktAck: nat)
      requires Valid() && id < M && pktAck < SEQ
      modifies this
      ensures Valid() && Rest(old(app), old(fifo), old(pending), old(g), old(past), old(courses.app)) && cp == old(cp) && storeQ == old(storeQ)
      ensures id in old(g.counts) && id in old(flows) && flows == old(flows)[id := Acked(old(flows)[id], pktAck, z.T)]
      // it moves the head if it acknowledges something new within what was sent; the transmit
      // side stays clean exactly if it does not overreach
      ensures id in g.counts && g.counts == old(g.counts)[id := g.counts[id]]
      ensures var p, c, b := old(flows)[id], old(g.counts)[id], Acknowledged(old(g.counts)[id].txHead, pktAck);
        && (g.counts[id].clean <==> c.clean && !Overreach(p.txAck, pktAck, p.txSeq))
        && g.counts[id] == c.(clean := g.counts[id].clean, txHead := g.counts[id].txHead)
        && (g.counts[id].clean ==>
            g.counts[id].txHead == if c.txHead < b <= c.sent && p.txSeq != SEQ - 1 then b else c.txHead)
    {
      hide CourseOk, Cp.CourseOk, FlowOk, QueueOk, FlowsOk, Cp.PipeOk, Wraps, NextAck, Overreach, Acknowledged;
      EachFlow(flows, app, g, z, M, id);
      ghost var c1 := AckCounts(flows[id], g.counts[id], pktAck);
      AckKeeps(flows[id], g.counts[id], z, turns, pktAck);
      Cp.PipeSame(flows, g.counts, cp, storeQ, z, id, Acked(flows[id], pktAck, z.T), c1);
      Update(id, Acked(flows[id], pktAck, z.T), c1, cp, storeQ, courses.copier);
    }

    /** The send pipeline sends a segment, of new bytes or again from the oldest one that is
        not acknowledged. */
    method Send(id: nat, again: bool) returns (n: nat)
      requires Valid() && id < M
      modifies this
      ensures Valid() && Rest(old(app), old(fifo), old(pending), old(g), old(past), old(courses.app)) && cp == old(cp) && storeQ == old(storeQ)
      ensures z.T > 0 && id in old(g.counts) && id in old(flows) && flows == old(flows)[id := Sent(old(flows)[id], again, z.T)]
      // only queued bytes are sent, and as many as a segment may have
      ensures var c := old(g.counts)[id];
        var from := if again then c.txHead else c.sent;
        && g.counts == old(g.counts)[id := c.(sent := from + n)]
        && (c.clean ==> from + n <= c.txTail && n <= MSS && (from < c.txTail ==> n > 0) && (n == MSS || c.txTail - (from + n) < 32))
    {
      hide CourseOk, Cp.CourseOk, FlowOk, QueueOk, FlowsOk, Cp.PipeOk, Plus, Wraps, SegmentSize;
      EachFlow(flows, app, g, z, M, id);
      var p := flows[id];
      ghost var c := g.counts[id];
      n := SegmentSize(Word(if again then p.txAck else p.txSeq, 2 * z.T), p.txTail, z.T);
      SendKeeps(p, c, z, turns, again);
      ghost var c1 := c.(sent := (if again then c.txHead else c.sent) + n);
      Cp.PipeSame(flows, g.counts, cp, storeQ, z, id, Sent(p, again, z.T), c1);
      Update(id, Sent(p, again, z.T), c1, cp, storeQ, courses.copier);
    }

    /** What the other engines leave alone. */
    ghost predicate Rest(app: App, fifo: seq<nat>, pending: Place, g: Shadow, past: Past, course: seq<Event>)
      reads this
    {
      && this.app == app && this.fifo == fifo && this.pending == pending && this.past == past
      && this.g.snap == g.snap && this.courses.app == course
    }

    /** The application's own machine, on the flow it serves. */
    method Serve(ok: bool)
      requires FlowsOk(flows, app, g, z, M) && Cp.PipeOk(flows, g.counts, cp, storeQ, z) && app.st != Ready
      requires CourseOk(app, courses.app)
      modifies this
      ensures fifo == old(fifo) && pending == old(pending) && cp == old(cp) && storeQ == old(storeQ) && past == old(past)
      ensures old(app).cur in old(flows) && RegsOk(old(app), z) && SizesOk(z) && |old(flows)[old(app).cur].ring| == z.R
      ensures app == NextApp(old(app), ok, old(flows)[old(app).cur], z)
      ensures flows == old(flows)[old(app).cur := NextPtrs(old(app), ok, old(flows)[old(app).cur], z)]
      ensures app.cur == old(app.cur) && (app.st == Ready <==> old(app.st) == RequeueFlow && ok)
      ensures Rank(app) < Rank(old(app)) || (!ok && app == old(app))
      ensures flows.Keys == old(flows.Keys) && g.counts.Keys == old(g.counts.Keys)
      ensures forall id :: id in g.counts ==> AppMoves(old(g.counts)[id], g.counts[id])
      ensures FlowsOk(flows, app, g, z, M) && Cp.PipeOk(flows, g.counts, cp, storeQ, z)
      ensures CourseOk(app, courses.app) && courses.copier == old(courses.copier) && courses.app == NextCourse(old(app), ok, old(courses.app), z)
      ensures PointersMove(old(app), old(courses.app), old(flows)[old(app).cur], flows[old(app).cur])
    {
      hide FlowsOk, NextApp, NextPtrs, NextCounts, NextSnap, RegsOk, SizesOk, Cp.PipeOk, Rank, CourseOk, NextCourse, PointersMove;
      NextState(app, ok, flows, g, z, M);
      ServeKeeps(flows, app, g, z, M, ok);
      var p := flows[app.cur];
      ghost var c := g.counts[app.cur];
      AppLeaves(app, ok, p, c, z);
      CourseKeeps(app, ok, courses.app, p, z);
      PointersOnlyThen(app, ok, courses.app, p, z);
      Cp.PipeSame(flows, g.counts, cp, storeQ, z, app.cur, NextPtrs(app, ok, p, z), NextCounts(app, ok, c));
      g := g.(counts := g.counts[app.cur := NextCounts(app, ok, c)], snap := NextSnap(app, ok, c, g.snap));
      courses := courses.(app := NextCourse(app, ok, courses.app, z));
      flows, app := flows[app.cur := NextPtrs(app, ok, p, z)], NextApp(app, ok, p, z);
    }

    /** The application's half of a clock edge: it takes the next flow or goes on with the one
        in service. */
    method Dispatch(ok: bool)
      requires FlowsOk(flows, app, g, z, M) && Cp.PipeOk(flows, g.counts, cp, storeQ, z) && CourseOk(app, courses.app)
      requires fifo != [] ==> fifo[0] < M
      modifies this
      ensures fifo == old(fifo) && pending == old(pending) && cp == old(cp) && storeQ == old(storeQ) && past == old(past)
      ensures FlowsOk(flows, app, g, z, M) && Cp.PipeOk(flows, g.counts, cp, storeQ, z)
      ensures old(app.st) == Ready ==>
        && flows == old(flows)
        && app == if fifo == [] then old(app) else old(app).(st := RxPtrsReq, cur := fifo[0])
      ensures old(app.st) != Ready ==>
        && old(app).cur in old(flows) && RegsOk(old(app), z) && SizesOk(z) && |old(flows)[old(app).cur].ring| == z.R
        && app == NextApp(old(app), ok, old(flows)[old(app).cur], z)
        && flows == old(flows)[old(app).cur := NextPtrs(old(app), ok, old(flows)[old(app).cur], z)]
        && app.cur == old(app.cur) && (app.st == Ready <==> old(app.st) == RequeueFlow && ok)
        && (Rank(app) < Rank(old(app)) || (!ok && app == old(app)))
        && courses.app == NextCourse(old(app), ok, old(courses.app), z)
        && PointersMove(old(app), old(courses.app), old(flows)[old(app).cur], flows[old(app).cur])
      ensures CourseOk(app, courses.app) && courses.copier == old(courses.copier)
      ensures flows.Keys == old(flows.Keys) && g.counts.Keys == old(g.counts.Keys)
      ensures forall id :: id in g.counts ==> AppMoves(old(g.counts)[id], g.counts[id])
    {
      hide FlowsOk, NextApp, NextPtrs, RegsOk, SizesOk, Cp.PipeOk, Rank, AppMoves, NextCourse, PointersMove, Wrote;
      if app.st != Ready {
        Serve(ok);
      } else {
        StaySame(g.counts);
        if fifo != [] {
          TakeFlow(flows, app, g, z, M, fifo[0]);
          app := app.(st := RxPtrsReq, cur := fifo[0]);
        }
      }
    }

    /** One clock edge of the application: `go` is the handshake its state waits for, and
        `notif` announces a flow that was not announced before. */
    method Step(go: bool, notif: Place)
      requires Valid() && (notif.Holds? ==> notif.id < M && notif.id !in past.announced)
      modifies this
      ensures Valid()
      ensures past.announced == old(past.announced) + Ids(notif)
      ensures old(past.enq) <= past.enq && old(past.deq) <= past.deq
      // a request to enter the FIFO is never refused: the entering flow is now queued
      ensures old(pending).Holds? ==> old(pending).id in fifo
      ensures old(app.st) == RequeueFlow && old(pending).Empty? ==> app.st == Ready && old(app.cur) in fifo
      ensures old(app.st) == Ready ==> (app.st != Ready <==> old(fifo) != [])
      ensures old(app.st) == Ready && old(fifo) != [] ==> app.cur == old(fifo)[0] && past.deq == old(past.deq) + [app.cur]
      ensures old(app.st) != Ready ==> app.cur == old(app.cur) && past.deq == old(past.deq)
      // the next-state logic, on the flow in service
      ensures old(app.st) != Ready ==> old(app).cur in old(flows) && RegsOk(old(app), z) && |old(flows)[old(app).cur].ring| == z.R
      ensures old(app.st) != Ready ==>
        var ok := if old(app.st) == RequeueFlow then old(pending).Empty? else go;
        && app == NextApp(old(app), ok, old(flows)[old(app).cur], z)
        && flows[old(app).cur] == NextPtrs(old(app), ok, old(flows)[old(app).cur], z)
      // the application moves only its own pointers, and only forward
      ensures flows.Keys == old(flows.Keys) && g.counts.Keys == old(g.counts.Keys)
      ensures forall id :: id in flows && (old(app.st) == Ready || id != old(app.cur)) ==> flows[id] == old(flows)[id]
      ensures forall id :: id in g.counts ==> AppMoves(old(g.counts)[id], g.counts[id])
      ensures cp == old(cp) && storeQ == old(storeQ)
      // head and tail move only after the whole reply has been written
      ensures old(app.st) != Ready ==>
        var ok := if old(app.st) == RequeueFlow then old(pending).Empty? else go;
        && courses.app == NextCourse(old(app), ok, old(courses.app), z)
        && PointersMove(old(app), old(courses.app), old(flows)[old(app).cur], flows[old(app).cur])
      // progress: with the awaited handshake the flow is given back sooner
      ensures old(app.st) != Ready ==>
        var ok := if old(app.st) == RequeueFlow then old(pending).Empty? else go;
        Rank(app) < Rank(old(app)) || (!ok && app == old(app))
    {
      hide FlowsOk, QueueOk, NextApp, NextPtrs, RegsOk, SizesOk, Cp.PipeOk, Rank, NextQueue, NextPast, AppMoves, CourseOk, NextCourse, PointersMove, Cp.CourseOk;
      var take, requeue := app.st == Ready && fifo != [], app.st == RequeueFlow;
      ghost var q := QueueOf(app, fifo, pending);
      QueueKeeps(q, past, take, requeue, notif, M);
      QueueFacts(q, past, take, requeue, notif, M);
      var entering := if pending.Holds? then pending else if requeue then Holds(app.cur) else Empty;
      var fifo1 := (if take then fifo[1..] else fifo) + (if entering.Holds? && |fifo| < M then [entering.id] else []);
      var ok := if requeue then pending.Empty? && |fifo| < M else go;
      past := NextPast(q, past, take, requeue, notif, M);
      Dispatch(ok);
      fifo, pending := fifo1, notif;
    }
  }

  /** The application moves a pointer only when its reply is in the transmit ring: every beat
      handed over, the write engine done; the receive head goes first. */
  predicate PointersMove(a: App, es: seq<Event>, p: Ptrs, p1: Ptrs) {
    && (p1.rxHead != p.rxHead ==> Wrote(es, a.wrLen, [WriteDone]))
    && (p1.txTail != p.txTail ==> Wrote(es, a.wrLen, [WriteDone, HeadMoved]))
  }

  lemma PointersOnlyThen(a: App, go: bool, es: seq<Event>, p: Ptrs, z: Sizes)
    requires SizesOk(z) && CourseOk(a, es)
    ensures PointersMove(a, es, p, NextPtrs(a, go, p, z))
  {
    hide Wrote, Plus;
  }

  lemma StaySame(counts: map<nat, Counts>)
    ensures forall id :: id in counts ==> AppMoves(counts[id], counts[id])
  {
  }

  /** What a cycle does to the queue, as its users see it. */
  lemma QueueFacts(q: Queue, h: Past, take: bool, requeue: bool, notif: Place, M: nat)
    requires QueueOk(q, h, M) && Legal(q, h, take, requeue, notif, M)
    ensures var e := Entering(q, requeue);
      var q1, h1 := NextQueue(q, take, requeue, notif, M), NextPast(q, h, take, requeue, notif, M);
      && (forall i :: 0 <= i < |q.fifo| ==> q.fifo[i] < M)
      && q1.fifo == (if take then q.fifo[1..] else q.fifo) + (if e.Holds? && |q.fifo| < M then [e.id] else [])
      && q1.pending == notif
      && q1.serving == (if take then Holds(q.fifo[0]) else if requeue && q.pending.Empty? then Empty else q.serving)
      && (e.Holds? ==> |q.fifo| < M && e.id in q1.fifo)
      && h1.announced == h.announced + Ids(notif) && h.enq <= h1.enq && h.deq <= h1.deq
      && h1.deq == h.deq + (if take then [q.fifo[0]] else [])
  {
    FifoBound(q, h, M);
    var e := Entering(q, requeue);
    if e.Holds? {
      NeverFull(q, h, M);
    }
    hide QueueOk;
    assert h.deq + [] == h.deq;
  }

  lemma FifoBound(q: Queue, h: Past, M: nat)
    requires QueueOk(q, h, M)
    ensures forall i :: 0 <= i < |q.fifo| ==> q.fifo[i] < M
  {
    forall i | 0 <= i < |q.fifo|
      ensures q.fifo[i] < M
    {
      assert q.fifo[i] in Elements(q.fifo);
    }
  }

  /** Only REQUEUE_FLOW leads back to READY, and the served flow does not change. */
  lemma NextState(app: App, go: bool, flows: map<nat, Ptrs>, g: Shadow, z: Sizes, M: nat)
    requires FlowsOk(flows, app, g, z, M) && app.st != Ready
    ensures app.cur in flows && |flows[app.cur].ring| == z.R && RegsOk(app, z) && SizesOk(z)
    ensures flows.Keys == g.counts.Keys && AppMoves(g.counts[app.cur], NextCounts(app, go, g.counts[app.cur]))
    ensures var a1 := NextApp(app, go, flows[app.cur], z);
      && a1.cur == app.cur && (a1.st == Ready <==> app.st == RequeueFlow && go)
      && (Rank(a1) < Rank(app) || (!go && a1 == app))
  {
    hide Serving, Resting, HeaderBytes, Rank, NextCounts, Minus;
    ServedSizes(app, g.snap, flows[app.cur], g.counts[app.cur], z);
    RankFalls(app, go, g.snap, flows[app.cur], g.counts[app.cur], z);
    AppMovesOn(app, go, g.counts[app.cur]);
  }

  lemma ServedSizes(a: App, s: Snap, p: Ptrs, c: Counts, z: Sizes)
    requires Serving(a, s, p, c, z)
    ensures |p.ring| == z.R && RegsOk(a, z) && SizesOk(z)
  {
    hide Phase, Consumed, FlowOk;
    RingSize(p, c, z);
  }

  lemma AppMovesOn(a: App, go: bool, c: Counts)
    ensures AppMoves(c, NextCounts(a, go, c))
  {
  }

  /** The application leaves alone what the copier works on. */
  lemma AppLeaves(a: App, go: bool, p: Ptrs, c: Counts, z: Sizes)
    requires SizesOk(z)
    ensures NextPtrs(a, go, p, z).rxCommit == p.rxCommit && NextPtrs(a, go, p, z).ring == p.ring
    ensures NextCounts(a, go, c).commit == c.commit && NextCounts(a, go, c).delivered == c.delivered
  {
  }

  lemma CopierFlow(flows: map<nat, Ptrs>, app: App, g: Shadow, cp: Cp.Copier, q: seq<Cp.Entry>, z: Sizes, M: nat)
    requires FlowsOk(flows, app, g, z, M) && Cp.PipeOk(flows, g.counts, cp, q, z) && Cp.Busy(cp)
    ensures cp.entry.id in flows && cp.entry.id in g.counts && FlowOk(flows[cp.entry.id], g.counts[cp.entry.id], z)
  {
    hide Resting, Serving, Cp.BacklogOk, Cp.CopierOk;
    EachFlow(flows, app, g, z, M, cp.entry.id);
  }

  lemma CommitMoves(cp: Cp.Copier, go: bool, p: Ptrs, c: Counts, z: Sizes)
    requires SizesOk(z) && |p.ring| == z.R
    ensures EngineMoves(p, c, Cp.NextFlow(cp, go, p, z), Cp.NextCommit(cp, go, c))
  {
  }

  lemma NoTake(cp: Cp.Copier, q: seq<Cp.Entry>)
    requires Cp.Busy(cp)
    ensures Cp.NextQueue(cp, q) == q
  {
  }

  lemma IdleCopier(cp: Cp.Copier, q: seq<Cp.Entry>, go: bool, any: Ptrs)
    requires !Cp.Busy(cp)
    ensures forall p :: Cp.NextCopier(cp, q, go, p) == Cp.NextCopier(cp, q, go, any)
  {
  }

  /** In every reachable state and for every flow: the pointer words are safe, what was
      accepted is a prefix of the peer's stream, and the application has consumed whole
      requests of that stream and answered each of them in full, the current one at most
      excepted. The transmit ring is safe as long as no acknowledgement has overreached, and
      `RecvFlow.OverreachBreaks` shows what follows one that does. */
  lemma Sound(rpc: Rpc, id: nat)
    requires rpc.Valid() && id < rpc.M
    ensures id in rpc.flows && id in rpc.g.counts
    ensures var p, c, z := rpc.flows[id], rpc.g.counts[id], rpc.z;
      && SizesOk(z) && p.rxHead < 2 * z.R && p.txHead < 2 * z.T
      && Minus(p.rxCommit, p.rxHead, 2 * z.R) <= Minus(p.rxTail, p.rxHead, 2 * z.R) <= z.R
      && (c.clean ==> Minus(p.txTail, p.txHead, 2 * z.T) <= z.T)
      && c.delivered == c.S[..c.tail]
      && c.head == Start(c.S, c.served)
      && (c.txTail == c.iss + Replied(c.S, c.served)
          || (rpc.app.st == AdjustTxTail && rpc.app.cur == id && c.served > 0 && c.txTail == c.iss + Replied(c.S, c.served - 1)))
  {
    hide Minus, Start, Replied, FlowOk, FlowsOk, QueueOk, Cp.PipeOk, DeliveryOk;
    EachFlow(rpc.flows, rpc.app, rpc.g, rpc.z, rpc.M, id);
    RingSafe(rpc.flows[id], rpc.g.counts[id], rpc.z);
    InOrder(rpc.flows[id], rpc.g.counts[id], rpc.z);
    Consumes(rpc.flows, rpc.app, rpc.g, rpc.z, rpc.M, id);
  }

  lemma InOrder(p: Ptrs, c: Counts, z: Sizes)
    requires FlowOk(p, c, z)
    ensures c.tail <= |c.S| && c.delivered == c.S[..c.tail]
  {
    hide Word, Slot;
  }

  lemma Consumes(flows: map<nat, Ptrs>, app: App, g: Shadow, z: Sizes, M: nat, id: nat)
    requires FlowsOk(flows, app, g, z, M) && id < M
    ensures id in g.counts && Consumed(g.counts[id], app.st == AdjustTxTail && app.cur == id)
  {
    hide FlowOk, Consumed, Phase;
  }
}
