/** A whole transmit path, UDP or TCP: input controller, checksum engine and
    output controller, all stepping together. */
module TxPath {
  import opened Streams
  import opened Parsing
  import opened ChksumFront
  import opened PseudoStripper
  import opened Sealing
  import opened SkidBuffer
  import AdderTree
  import E = ChksumEngine
  import P = PrefixInserter

  lemma {:induction false} CutsGrow(a: seq<seq<byte>>, b: seq<seq<byte>>)
    requires a <= b
    ensures Heads(a) <= Heads(b) && Tails(a) <= Tails(b)
    ensures |Heads(a)| == |Tails(a)| == |a|
    decreases |b|
  {
    if a != b {
      assert a <= b[..|b| - 1];
      CutsGrow(a, b[..|b| - 1]);
    } else if b != [] {
      CutsGrow(b[..|b| - 1], b[..|b| - 1]);
    }
  }

  /** What the output controller has delivered, measured against any reliable
      history its input is on its way to. */
  lemma StripperDelivers(out: Stripper, h: seq<Beat>)
    requires out.Valid() && Open(h) == [] && out.log.t.inp <= h
    ensures out.log.hdrs <= Heads(Frames(h))
    ensures Frames(out.log.t.out) <= Tails(Frames(h))
  {
    var inp, done := out.log.t.inp, out.log.done;
    hide Stripper.Valid, Frames, Heads, Tails, Open, Payload, Pending;
    FramesOfPrefix(inp, h);
    StripperState(out);
    CutsGrow(Frames(inp), Frames(h));
    var started := out.hdrState.HdrWaitFin?;
    assert started ==> |done| < |Frames(h)| && out.pseudo <= Frames(h)[|done|] by {
      if out.state.Output? { StartedFrame(inp, h, out.pseudo); }
    }
    HeadsPrefix(done, Frames(h), started, out.pseudo);
  }

  lemma HeadsPrefix(done: seq<seq<byte>>, fs: seq<seq<byte>>, started: bool, pseudo: seq<byte>)
    requires done <= fs
    requires started ==> |done| < |fs| && |pseudo| == PSEUDO && pseudo <= fs[|done|]
    ensures Heads(done) + Maybe(started, pseudo) <= Heads(fs)
  {
    hide Heads, Tails;
    CutsGrow(done, fs);
    if started {
      assert fs[..|done|] == done;
      HeadAt(fs, |done|, pseudo);
    }
  }

  lemma StripperState(out: Stripper)
    requires out.Valid()
    ensures out.log.done <= Frames(out.log.t.inp)
    ensures Frames(out.log.t.out) <= Tails(Frames(out.log.t.inp))
    ensures out.log.hdrs == Heads(out.log.done) + Maybe(out.hdrState.HdrWaitFin?, out.pseudo)
    ensures out.state.Ready? ==> out.hdrState.Waiting?
    ensures |out.pseudo| == PSEUDO
    ensures out.state.Output? ==>
      && out.log.done == Frames(out.log.t.inp) && Open(out.log.t.inp) != []
      && out.pseudo <= Pending(out.log.t.inp)
    ensures out.state.OutputLast? || out.state.WaitFin? ==>
      && |out.log.done| < |Frames(out.log.t.inp)|
      && |out.pseudo| == PSEUDO && out.pseudo <= Frames(out.log.t.inp)[|out.log.done|]
  {
    var t, done := out.log.t, out.log.done;
    hide Frames, Heads, Tails, Idle, Streaming, Draining, Finished, Open, Payload;
    match out.state {
      case Ready => WhenIdle(t, done, out.B);
      case Output => WhenStreaming(t, done, out.B, out.pseudo, out.hold, out.left);
      case OutputLast => WhenDraining(t, done, out.B, out.pseudo, out.hold[..out.left]);
      case WaitFin => WhenFinished(t, done, out.B, out.pseudo);
    }
  }

  lemma WhenIdle(t: Trace, done: seq<seq<byte>>, B: nat)
    requires Idle(t, done, B)
    ensures done <= Frames(t.inp) && Frames(t.out) <= Tails(Frames(t.inp))
  {
    hide Frames, Tails;
  }

  lemma WhenStreaming(t: Trace, done: seq<seq<byte>>, B: nat, pseudo: seq<byte>, hold: seq<byte>, left: nat)
    requires Streaming(t, done, B, pseudo, hold, left)
    ensures done == Frames(t.inp) && Frames(t.out) <= Tails(Frames(t.inp))
    ensures Open(t.inp) != [] && pseudo <= Pending(t.inp)
  {
    hide Frames, Tails, Open;
    assert Payload([]) == [];
    Assoc(pseudo, Pending(t.out), hold);
  }

  lemma WhenDraining(t: Trace, done: seq<seq<byte>>, B: nat, pseudo: seq<byte>, rest: seq<byte>)
    requires Draining(t, done, B, pseudo, rest)
    ensures done <= Frames(t.inp) && Frames(t.out) <= Tails(Frames(t.inp))
    ensures |done| < |Frames(t.inp)| && |pseudo| == PSEUDO && pseudo <= Frames(t.inp)[|done|]
  {
    hide Frames, Tails, Open, Payload, Pending;
    CutsGrow(done, Frames(t.inp));
  }

  lemma WhenFinished(t: Trace, done: seq<seq<byte>>, B: nat, pseudo: seq<byte>)
    requires Finished(t, done, B, pseudo)
    ensures done <= Frames(t.inp) && Frames(t.out) <= Tails(Frames(t.inp))
    ensures |done| < |Frames(t.inp)| && |pseudo| == PSEUDO && pseudo <= Frames(t.inp)[|done|]
  {
    hide Frames, Tails, Open, Payload, Pending, AllClean;
    var f := Frames(t.inp)[|Frames(t.inp)| - 1];
    assert f == f[..PSEUDO] + f[PSEUDO..];
    PushFrame(done, f[..PSEUDO], f[PSEUDO..]);
  }

  /** A frame under way is the beginning of the next frame of the history. */
  lemma StartedFrame(inp: seq<Beat>, h: seq<Beat>, head: seq<byte>)
    requires inp <= h && Open(h) == [] && Open(inp) != [] && head <= Pending(inp)
    ensures |Frames(inp)| < |Frames(h)| && head <= Frames(h)[|Frames(inp)|]
  {
    hide Frames, Open, Closed, Payload;
    var rest := h[|inp|..];
    assert h == inp + rest;
    FramesGrow(inp, rest);
    FramesAre(inp);
    FramesAre(h);
    assert |Closed(inp)| != |Closed(h)|;
    var f := Closed(h)[|Closed(inp)|];
    var tail := f[|Open(inp)|..];
    assert f == Open(inp) + tail;
    PayloadSplit(Open(inp), tail);
  }

  lemma {:induction false} HeadAt(fs: seq<seq<byte>>, k: nat, head: seq<byte>)
    requires k < |fs| && |head| == PSEUDO && head <= fs[k]
    ensures |Heads(fs)| == |fs| && Heads(fs)[..k] == Heads(fs[..k]) && Heads(fs)[k] == head
    ensures Heads(fs[..k]) + [head] <= Heads(fs)
  {
    CutsGrow(fs, fs);
    if k < |fs| - 1 {
      var init := fs[..|fs| - 1];
      HeadAt(init, k, head);
      assert init[..k] == fs[..k];
    } else {
      assert fs[k][..PSEUDO] == head;
      CutsGrow(fs[..k], fs[..k]);
    }
  }

  lemma {:induction false} TailAt(fs: seq<seq<byte>>, k: nat)
    requires k < |fs| && PSEUDO <= |fs[k]|
    ensures |Tails(fs)| == |fs| && Tails(fs)[k] == fs[k][PSEUDO..]
    ensures |Heads(fs)| == |fs| && Heads(fs)[k] == fs[k][..PSEUDO]
  {
    CutsGrow(fs, fs);
    if k < |fs| - 1 { TailAt(fs[..|fs| - 1], k); }
  }

  /** `part` is a proper beginning of entry `k` of a list. */
  ghost predicate Underway(part: seq<byte>, fs: seq<seq<byte>>, k: nat) {
    k < |fs| && part <= fs[k] && |part| < |fs[k]|
  }

  /** What is under way on the data interface is a proper beginning of the next frame due. */
  lemma OpenTail(out: Stripper, h: seq<Beat>)
    requires out.Valid() && Open(h) == [] && out.log.t.inp <= h && Open(out.log.t.out) != []
    ensures Underway(Pending(out.log.t.out), Tails(Frames(h)), |Frames(out.log.t.out)|)
  {
    var t, done := out.log.t, out.log.done;
    hide Frames, Heads, Tails, Idle, Streaming, Draining, Finished, Open, Payload;
    match out.state {
      case Ready => NotIdle(t, done, out.B); assert false;
      case WaitFin => NotFinished(t, done, out.B, out.pseudo); assert false;
      case Output => OpenStreaming(t, done, out.B, out.pseudo, out.hold, out.left, h);
      case OutputLast => OpenDraining(t, done, out.B, out.pseudo, out.hold[..out.left], h);
    }
  }

  lemma NotIdle(t: Trace, done: seq<seq<byte>>, B: nat)
    requires Idle(t, done, B)
    ensures Open(t.out) == []
  {
  }

  lemma NotFinished(t: Trace, done: seq<seq<byte>>, B: nat, pseudo: seq<byte>)
    requires Finished(t, done, B, pseudo)
    ensures Open(t.out) == []
  {
  }

  lemma OpenStreaming(t: Trace, done: seq<seq<byte>>, B: nat, pseudo: seq<byte>, hold: seq<byte>, left: nat, h: seq<Beat>)
    requires PSEUDO < B && Streaming(t, done, B, pseudo, hold, left) && t.inp <= h && Open(h) == []
    ensures Underway(Pending(t.out), Tails(Frames(h)), |Frames(t.out)|)
  {
    WhenStreaming(t, done, B, pseudo, hold, left);
    hide Frames, Heads, Tails, Open, Payload, Pending;
    StartedFrame(t.inp, h, Pending(t.inp));
    CutsGrow(done, done);
    Beyond(Frames(h), |done|, pseudo, Pending(t.out), hold, Pending(t.inp));
  }

  lemma OpenDraining(t: Trace, done: seq<seq<byte>>, B: nat, pseudo: seq<byte>, rest: seq<byte>, h: seq<Beat>)
    requires rest != [] && Draining(t, done, B, pseudo, rest) && t.inp <= h
    ensures Underway(Pending(t.out), Tails(Frames(h)), |Frames(t.out)|)
  {
    hide Frames, Heads, Tails, Open, Payload, Pending;
    FramesOfPrefix(t.inp, h);
    CutsGrow(done, done);
    var f := pseudo + (Pending(t.out) + rest);
    assert Frames(t.inp)[|done|] == f;
    Assoc(pseudo, Pending(t.out), rest);
    Beyond(Frames(h), |done|, pseudo, Pending(t.out), rest, f);
  }

  lemma Beyond(fs: seq<seq<byte>>, k: nat, pseudo: seq<byte>, part: seq<byte>, more: seq<byte>, all: seq<byte>)
    requires k < |fs| && |pseudo| == PSEUDO && more != [] && all == (pseudo + part) + more && all <= fs[k]
    ensures Underway(part, Tails(fs), k)
  {
    hide Heads, Tails;
    TailAt(fs, k);
    var f := fs[k];
    assert f[..|pseudo + part|] == all[..|pseudo + part|] == pseudo + part;
    assert f[PSEUDO..][..|part|] == part;
  }

  class Transmit {
    const front: Front
    const out: Stripper

    ghost predicate Valid()
      reads this, front, front.ins, front.eng, front.eng.pipe, front.eng.ins, front.eng.skid, out
    {
      && front.Valid() && out.Valid() && out.B == front.s.B
      && out.log.t.inp == front.eng.skid.sent
    }

    constructor (s: Shape, levels: nat, byLength: bool)
      requires ShapeOk(s) && 2 <= levels <= 8 && s.B == AdderTree.Pow2(levels)
      ensures Valid() && front.s == s && out.byLength == byLength
      ensures fresh(front) && fresh(front.ins) && fresh(front.eng) && fresh(front.eng.pipe)
      ensures fresh(front.eng.ins) && fresh(front.eng.skid) && fresh(out)
      ensures front.ins.t == P.Trace([], [], [], []) && out.log == Log(Trace([], []), [], [])
    {
      front := new Front(s, levels);
      out := new Stripper(s.B, byLength);
    }

    /** One clock edge of the whole path, under any valid and ready schedule. */
    method Step(hdrVal: bool, hdr: seq<byte>, dataVal: bool, beat: Beat, fifoRdy: bool,
                showData: bool, showEntry: bool, dstHdrRdy: bool, dstDataRdy: bool)
      returns (outHdrVal: bool, outHdr: seq<byte>, outVal: bool, emitted: Beat)
      requires Valid()
      requires |hdr| == front.s.H && (hdrVal && front.HdrRdy() ==> HeaderOk(hdr, front.s)) && OnBus(beat, front.s.B)
      requires dataVal && front.DataRdy(fifoRdy) ==>
        BodyFits(front.ins.current.bytes, |Pending(front.ins.t.dataIn)|, beat)
      modifies front.ins, front.eng, front.eng.pipe, front.eng.ins, front.eng.skid, out
      ensures Valid()
      ensures front.ins.t.headers == old(front.ins.t.headers) + Maybe(hdrVal && old(front.HdrRdy()), AsHeader(hdr))
      ensures front.ins.t.dataIn == old(front.ins.t.dataIn) + Maybe(dataVal && old(front.DataRdy(fifoRdy)), beat)
      ensures outHdrVal == old(out.hdrState).HdrOutput?
      ensures outVal == (old(out.state).OutputLast? || (old(out.state).Output? && old(front.eng.skid.out).Holds?))
      ensures out.log.hdrs == old(out.log.hdrs) + Maybe(outHdrVal && dstHdrRdy, outHdr)
      ensures out.log.t.out == old(out.log.t.out) + Maybe(outVal && dstDataRdy, emitted)
      ensures OnBus(emitted, out.B) && |outHdr| == PSEUDO
      ensures !(hdrVal && old(front.HdrRdy())) && !old(front.ins.state).Input? ==> !front.ins.state.Input?
      // With the FIFOs showing their heads, only what comes in adds work, what goes out is
      // work done, and a cycle does some unless the path is stalled.
      ensures fifoRdy && showData && showEntry ==>
        Work() <= old(Work()) + Cost(hdrVal && old(front.HdrRdy()), dataVal && old(front.DataRdy(fifoRdy)), front.eng.levels)
      ensures fifoRdy && showData && showEntry && !(hdrVal && old(front.HdrRdy())) && !(dataVal && old(front.DataRdy(fifoRdy))) ==>
        && ((outHdrVal && dstHdrRdy) || (outVal && dstDataRdy) ==> Work() < old(Work()))
        && (Work() < old(Work()) || old(Stalled(dstHdrRdy, dstDataRdy)))
    {
      hide Front.Valid, Stripper.Valid, Fits, Pending, Maybe, Leaving, OnBus, HeaderOk, BodyFits, Front.Work, E.Engine.Starved, Goes, NextHdr, Weight, PathWork, Cost;
      front.eng.StarvedEmpty();
      TwinIdle(out);
      WorkIs();
      var respVal := front.eng.skid.out.Holds?;
      var resp := if respVal then front.eng.skid.out.beat else beat;
      Offer(front, resp);
      var respRdy;
      respRdy, outHdrVal, outHdr, outVal, emitted := out.Step(respVal, resp, dstHdrRdy, dstDataRdy);
      SameBeat(front.eng.skid.out, respVal, resp, respRdy);
      front.Step(hdrVal, hdr, dataVal, beat, fifoRdy, showData, showEntry, respRdy);
      WeightFalls(old(out.state), out.state, old(out.hdrState), respVal, dstHdrRdy, dstDataRdy);
      WorkIs();
      if fifoRdy && showData && showEntry {
        PathFalls(old(front.Work()), front.Work(), old(Weight(out.state, out.hdrState)), Weight(out.state, out.hdrState),
                  hdrVal && old(front.HdrRdy()), dataVal && old(front.DataRdy(fifoRdy)), front.eng.levels,
                  old(front.ins.state).Last?, respVal && respRdy,
                  (old(out.state).OutputLast? && dstDataRdy) || (old(out.hdrState).HdrOutput? && dstHdrRdy)
                  || (old(out.state).WaitFin? && old(out.hdrState).HdrWaitFin?),
                  old(front.eng.Starved()), respRdy);
      }
    }

    /** What is left to do on the path. */
    ghost function Work(): nat
      reads this, front, front.ins, front.eng, front.eng.pipe, front.eng.ins, front.eng.skid, out
    {
      PathWork(front.Work(), Weight(out.state, out.hdrState))
    }

    lemma WorkIs()
      ensures Work() == PathWork(front.Work(), Weight(out.state, out.hdrState))
    {
    }

    /** No part of the path can move: nothing is left to feed, the engine has nothing to do or
        nobody to give it to, and neither output machine is served. */
    ghost predicate Stalled(dstHdrRdy: bool, dstDataRdy: bool)
      reads this, front, front.ins, front.eng, front.eng.pipe, front.eng.ins, front.eng.skid, out
    {
      && !front.ins.state.Last?
      && (front.eng.Starved() || !(out.state.Ready? || (out.state.Output? && dstDataRdy)))
      && !(out.state.OutputLast? && dstDataRdy) && !(out.hdrState.HdrOutput? && dstHdrRdy)
      && !(out.state.WaitFin? && out.hdrState.HdrWaitFin?)
    }

    /** Conservation: with nothing inside, everything taken has been handed over. */
    lemma Complete()
      requires Valid() && front.ins.state.Ready? && front.eng.Quiet() && out.state.Ready?
      ensures out.log.hdrs == Heads(SealedImages(front.ins.t.packets, front.s))
      ensures Frames(out.log.t.out) == Tails(SealedImages(front.ins.t.packets, front.s)) && Open(out.log.t.out) == []
      ensures front.ins.t.headers == P.Headers(front.ins.t.packets)
      ensures Frames(front.ins.t.dataIn) == P.Bodies(front.ins.t.packets)
    {
      hide Front.Valid, Heads, Tails, Frames, SealedImages, Stripper.Valid, P.Headers, P.Bodies, Open;
      front.Complete();
      StripperIdle(out);
    }

    /** In every reachable state: headers handed over are the pseudo-headers, and
        frames handed over the sealed frames without them, of packets taken, in
        order, none lost, none altered. */
    lemma Correct()
      requires Valid()
      ensures out.log.hdrs <= Heads(SealedImages(front.ins.t.packets, front.s))
      ensures Frames(out.log.t.out) <= Tails(SealedImages(front.ins.t.packets, front.s))
      ensures Open(out.log.t.out) != [] ==>
        Underway(Pending(out.log.t.out), Tails(SealedImages(front.ins.t.packets, front.s)), |Frames(out.log.t.out)|)
    {
      hide Front.Valid, Heads, Tails, Frames, SealedImages, Stripper.Valid, Pending;
      FrontFacts(front);
      var h := front.Correct();
      StripperDelivers(out, h);
      CutsGrow(Frames(h), SealedImages(front.ins.t.packets, front.s));
      if Open(out.log.t.out) != [] { OpenTail(out, h); }
    }
  }

  /** A transmit front with nothing to do leaves no frame open behind it. */
  lemma Closes(tx: Transmit)
    requires tx.Valid() && tx.front.ins.state.Ready? && tx.front.eng.Starved()
    ensures tx.front.eng.Quiet() && !tx.out.state.Output?
  {
    hide P.Inserter.Valid, E.Engine.Starved, Stripper.Valid, Frames, Open, E.Engine.Quiet, SealedImages, P.Headers, P.Bodies, P.Images, Heads, Tails;
    tx.front.eng.Settled();
    tx.front.Complete();
    StripperState(tx.out);
  }

  /** Nothing is inside. */
  predicate AtRest(tx: Transmit)
    reads tx, tx.front, tx.front.ins, tx.front.eng, tx.front.eng.pipe, tx.front.eng.ins, tx.front.eng.skid, tx.out
  {
    tx.front.ins.state.Ready? && tx.front.eng.Quiet() && tx.out.state.Ready?
  }

  /** No deadlock: with a destination that takes everything and no packet half handed over, a
      path that cannot move is at rest. */
  lemma NoDeadlock(tx: Transmit)
    requires tx.Valid() && tx.Stalled(true, true) && !tx.front.ins.state.Input?
    ensures AtRest(tx)
  {
    hide Front.Valid, Stripper.Valid, E.Engine.Starved, E.Engine.Quiet;
    TwinIdle(tx.out);
    Closes(tx);
  }

  /** Left alone, the path comes to rest. */
  method Drain(tx: Transmit)
    requires tx.Valid() && !tx.front.ins.state.Input?
    modifies tx.front.ins, tx.front.eng, tx.front.eng.pipe, tx.front.eng.ins, tx.front.eng.skid, tx.out
    ensures tx.Valid() && AtRest(tx)
    ensures tx.front.ins.t.headers == old(tx.front.ins.t.headers) && tx.front.ins.t.dataIn == old(tx.front.ins.t.dataIn)
  {
    hide Transmit.Valid, Transmit.Stalled, Transmit.Work, AtRest, Pending, BodyFits, HeaderOk;
    Buses(tx);
    var nobody, nothing := seq(tx.front.s.H, _ => 0), Beat(seq(tx.front.s.B, _ => 0), false, 0);
    while !AtRest(tx)
      invariant tx.Valid() && !tx.front.ins.state.Input?
      invariant tx.front.ins.t.headers == old(tx.front.ins.t.headers) && tx.front.ins.t.dataIn == old(tx.front.ins.t.dataIn)
      decreases tx.Work()
    {
      if tx.Stalled(true, true) { NoDeadlock(tx); }
      var _, _, _, _ := tx.Step(false, nobody, false, nothing, true, true, true, true, true);
    }
  }

  lemma Buses(tx: Transmit)
    requires tx.Valid()
    ensures ShapeOk(tx.front.s)
  {
    FrontFacts(tx.front);
  }

  lemma StripperIdle(out: Stripper)
    requires out.Valid() && out.state.Ready?
    ensures out.log.hdrs == Heads(Frames(out.log.t.inp)) && Frames(out.log.t.out) == Tails(Frames(out.log.t.inp))
    ensures Open(out.log.t.out) == []
  {
  }

  lemma TwinIdle(out: Stripper)
    requires out.Valid()
    ensures out.state.Ready? <==> out.hdrState.Waiting?
  {
  }

  lemma Offer(front: Front, resp: Beat)
    requires front.Valid()
    requires front.eng.skid.out.Holds? ==> resp == front.eng.skid.out.beat
    ensures ShapeOk(front.s)
    ensures front.eng.skid.out.Holds? ==> OnBus(resp, front.s.B) && Fits(Pending(front.eng.skid.sent), resp, front.s.B)
  {
    hide Front.Valid, Fits, Pending, Reliable;
    FrontFacts(front);
    if front.eng.skid.out.Holds? {
      var h := front.Correct();
      assert Item(front.eng.skid.out) == [resp];
      NextFits(front.eng.skid.sent, resp, h, front.s);
    }
  }
}
