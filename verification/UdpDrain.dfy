/** The UDP paths wired together never deadlock, and left alone they empty themselves. */
module UdpDrain {
  import opened Streams
  import opened ChksumFront
  import opened ChksumEngine
  import opened Verdicts
  import opened UdpRxOutput
  import opened UdpLoop
  import Strip = PseudoStripper
  import Tx = TxPath
  import Rx = RxPath
  import P = PrefixInserter

  /** The headers that a controller has taken, counted against its packets. */
  lemma HeaderCount(ins: P.Inserter)
    requires ins.Valid()
    ensures |ins.t.headers| == |ins.t.packets| + if ins.state.Input? then 1 else 0
  {
    hide Frames, P.Bodies, P.Images, P.Headers;
    P.HeadersAt(ins.t.packets);
  }

  /** The headers that the transmit side has handed over, counted against its data frames. */
  lemma HandedCount(out: Strip.Stripper)
    requires out.Valid()
    ensures |out.log.hdrs| + (if out.state.WaitFin? then 1 else 0)
         == |Frames(out.log.t.out)| + if out.hdrState.HdrWaitFin? then 1 else 0
  {
    hide Frames, Open, Pending, Strip.Heads, Strip.Tails;
    Tx.CutsGrow(out.log.done, out.log.done);
  }

  /** Every header handed over is a header taken, and every data frame a body: between two
      datagrams the receive controller has as many of the one as of the other. */
  lemma InStep(l: Loop)
    requires l.Valid()
    ensures |l.tx.out.log.hdrs| == |Frames(l.tx.out.log.t.out)| + if l.rx.front.ins.state.Input? then 1 else 0
  {
    hide Tx.Transmit.Valid, Frames, Wired, AllGood, Strip.Heads, Strip.Tails, UdpFrame;
    RxWide(l.rx);
    var gs := Owed(l.tx);
    CurrentHeader(l.rx.front.ins, l.tx.out.log.hdrs, gs);
    WiredAt(l.tx.out.log.hdrs, gs);
    HeaderCount(l.rx.front.ins);
  }

  lemma TxSettled(l: Loop)
    requires l.Valid() && l.Stuck() && !l.tx.front.ins.state.Input?
    ensures l.tx.front.ins.state.Ready? && l.tx.front.eng.Quiet() && l.tx.out.state.Ready?
    ensures l.rx.front.ins.state.Ready?
  {
    hide Tx.Transmit.Valid, Rx.Receive.Valid, Engine.Starved, Engine.Quiet, Frames, Wired, AllGood;
    InStep(l);
    TxCounts(l.tx);
    RxTransfer(l.rx);
    if l.tx.front.eng.Starved() { Tx.Closes(l.tx); }
  }

  lemma TxCounts(tx: Tx.Transmit)
    requires tx.Valid()
    ensures |tx.out.log.hdrs| + (if tx.out.state.WaitFin? then 1 else 0)
         == |Frames(tx.out.log.t.out)| + if tx.out.hdrState.HdrWaitFin? then 1 else 0
    ensures tx.out.state.Ready? <==> tx.out.hdrState.Waiting?
  {
    hide Front.Valid, Strip.Stripper.Valid, Frames;
    HandedCount(tx.out);
    Tx.TwinIdle(tx.out);
  }

  lemma RxTransfer(rx: Rx.Receive)
    requires rx.Valid()
    ensures rx.front.ins.state.Ready? <==> !rx.front.eng.pipe.transfer
  {
  }

  lemma RxQuiet(rx: Rx.Receive)
    requires rx.Valid() && rx.front.ins.state.Ready? && rx.front.eng.Starved()
    ensures rx.front.eng.Quiet()
  {
    hide P.Inserter.Valid, Engine.Starved, Receiver.Valid, Engine.Quiet, P.Images;
    rx.front.eng.Settled();
  }

  /** A receiver that waits for a beat inside a frame has been given part of one, or is to
      drop the next. */
  lemma Waits(r: Receiver)
    requires r.Valid() && (r.state.Output? || r.state.Dropping?)
    ensures Open(r.log.t.inp) != [] || Judge(Udp, Closed(r.log.t.inp)).skip
  {
    hide Frames, Closed, Judge, Blocks, Bodies, Payload;
  }

  /** No deadlock: paths that cannot move, with no datagram half accepted, are at rest. */
  lemma NoDeadlock(l: Loop)
    requires l.Valid() && l.Stuck() && !l.tx.front.ins.state.Input?
    ensures AtRest(l.tx, l.rx)
  {
    hide Tx.Transmit.Valid, Rx.Receive.Valid, Receiver.Valid, Engine.Starved, Engine.Quiet, Frames, Wired, AllGood, Open, Closed, Judge, P.Images, Consistent;
    TxSettled(l);
    l.rx.Twins();
    RxQuiet(l.rx);
    FramesGiven(l.tx, l.rx);
    RxWired(l.rx);
    if l.rx.out.state.Output? || l.rx.out.state.Dropping? {
      Waits(l.rx.out);
    }
  }

  lemma RxWired(rx: Rx.Receive)
    requires rx.Valid()
    ensures rx.out.Valid() && rx.out.log.t.inp == rx.front.eng.skid.sent
  {
  }

  lemma Wide(l: Loop)
    requires l.Valid()
    ensures BLOCK < l.rx.out.B
  {
    RxWide(l.rx);
  }

  /** Left alone, by an application with no datagram half handed over and a destination that
      takes everything, the paths come to rest, and by then every datagram accepted has been
      delivered. */
  method Drain(l: Loop)
    requires l.Valid() && !l.tx.front.ins.state.Input?
    modifies l.tx.front.ins, l.tx.front.eng, l.tx.front.eng.pipe, l.tx.front.eng.ins, l.tx.front.eng.skid, l.tx.out
    modifies l.rx.front.ins, l.rx.front.eng, l.rx.front.eng.pipe, l.rx.front.eng.ins, l.rx.front.eng.skid, l.rx.out
    ensures l.Valid() && AtRest(l.tx, l.rx)
    ensures l.tx.front.ins.t.headers == old(l.tx.front.ins.t.headers) && l.tx.front.ins.t.dataIn == old(l.tx.front.ins.t.dataIn)
    ensures l.rx.out.log.hdrs == BlocksOf(old(l.tx.front.ins.t.headers))
    ensures Frames(l.rx.out.log.t.out) == Frames(old(l.tx.front.ins.t.dataIn))
  {
    hide Loop.Valid, Loop.Stuck, Loop.Rank, BlocksOf, Frames, AtRest, Pending, BodyFits;
    Wide(l);
    var nobody := Request([0, 0, 0, 0], [0, 0, 0, 0], [0, 0], [0, 0], 8);
    var nothing := Beat(seq(l.rx.out.B, _ => 0), false, 0);
    while !AtRest(l.tx, l.rx)
      invariant l.Valid() && !l.tx.front.ins.state.Input?
      invariant l.tx.front.ins.t.headers == old(l.tx.front.ins.t.headers) && l.tx.front.ins.t.dataIn == old(l.tx.front.ins.t.dataIn)
      decreases l.Rank()
    {
      if l.Stuck() { NoDeadlock(l); }
      var _, _, _, _ := l.Step(false, nobody, false, nothing, true, true, true, true, true, true, true, true);
    }
    l.Complete();
  }
}
