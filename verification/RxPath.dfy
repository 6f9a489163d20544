/** The whole UDP receive path: input controller, checksum engine and output
    controller, all stepping together. */
module RxPath {
  import opened Streams
  import opened Parsing
  import opened OnesComplement
  import opened ChksumFront
  import opened Sealing
  import opened SkidBuffer
  import opened ChksumEngine
  import opened Verdicts
  import opened UdpRxOutput
  import opened UdpAccept
  import AdderTree
  import Strip = PseudoStripper
  import P = PrefixInserter

  /** The receive path holds back the pseudo-header; the checksum field of the UDP
      header is byte 18 of a frame of at least 20 bytes. */
  function UdpRxShape(B: nat): Shape {
    Shape(B, 12, 18, 20)
  }

  /** The UDP header repeats the length that came with the IP header. */
  predicate SameLength(f: seq<byte>) {
    BLOCK <= |f| && UdpLen(f) == Strip.Len(f)
  }

  ghost predicate AllSame(fs: seq<seq<byte>>) {
    forall i :: 0 <= i < |fs| ==> SameLength(fs[i])
  }

  /** The same promise about a payload beat of the frame that `hdr` started. */
  predicate RepeatsLength(hdr: seq<byte>, got: seq<byte>, b: Beat) {
    Strip.PSEUDO <= |hdr| && 6 <= |got + b.data| && Field16(got + b.data, 4) == Strip.Len(hdr)
  }

  lemma {:induction false} JudgeGrow(a: seq<seq<Beat>>, b: seq<seq<Beat>>)
    requires a <= b
    ensures Judge(Udp, a).good <= Judge(Udp, b).good
    decreases |b|
  {
    if a != b {
      assert a <= b[..|b| - 1];
      JudgeGrow(a, b[..|b| - 1]);
    }
  }

  lemma {:induction false} CutsGrow(a: seq<seq<byte>>, b: seq<seq<byte>>)
    requires a <= b
    ensures Blocks(a) <= Blocks(b) && Bodies(a) <= Bodies(b)
    ensures |Blocks(a)| == |a|
    decreases |b|
  {
    if a != b {
      assert a <= b[..|b| - 1];
      CutsGrow(a, b[..|b| - 1]);
    } else if b != [] {
      CutsGrow(b[..|b| - 1], b[..|b| - 1]);
    }
  }

  lemma BlocksPrefix(done: seq<seq<byte>>, gs: seq<seq<byte>>, started: bool, block: seq<byte>)
    requires done <= gs
    requires started ==> |done| < |gs| && |block| == BLOCK && block <= gs[|done|]
    ensures Blocks(done) + Maybe(started, block) <= Blocks(gs)
  {
    CutsGrow(done, gs);
    if started {
      var k := |done|;
      var g := gs[k];
      assert g == block + g[BLOCK..];
      PushGood(done, block, g[BLOCK..]);
      assert gs[..k + 1] == done + [g];
      hide Blocks, Bodies;
      CutsGrow(done + [g], gs);
    }
  }

  lemma WhenStreaming(t: Trace, done: seq<seq<byte>>, B: nat, block: seq<byte>, hold: seq<byte>, left: nat, h: seq<Beat>)
    requires Streaming(t, done, B, block, hold, left) && t.inp <= h && Open(h) == []
    ensures
      var gs := Judge(Udp, Closed(h)).good;
      && done <= gs && Frames(t.out) <= Bodies(gs)
      && |done| < |gs| && |block| == BLOCK && block <= gs[|done|]
  {
    hide Frames, Closed, Open, Judge, Bodies, Payload, Passes, UdpLen;
    var rest, c := h[|t.inp|..], Closed(t.inp);
    assert h == t.inp + rest;
    FramesGrow(t.inp, rest);
    assert Open(t.inp) != [] by { StillOpen(t, done, B, block, hold, left); }
    var f := Closed(h)[|c|];
    var tail := f[|Open(t.inp)|..];
    assert f == Open(t.inp) + tail;
    assert Passes(Udp, f) by { PassesExtends(Open(t.inp), tail); }
    PayloadSplit(Open(t.inp), tail);
    PushJudge(Udp, c, f);
    assert Closed(h)[..|c| + 1] == c + [f];
    JudgeGrow(c + [f], Closed(h));
    CutsGrow(done, Judge(Udp, Closed(h)).good);
    Assoc(block, Pending(t.out), hold);
  }

  lemma PassesExtends(o: seq<Beat>, tail: seq<Beat>)
    requires Passes(Udp, o)
    ensures Passes(Udp, o + tail)
  {
    assert (o + tail)[0] == o[0];
  }

  lemma WhenClosed(t: Trace, done: seq<seq<byte>>, more: seq<seq<byte>>, h: seq<Beat>)
    requires t.inp <= h && Judge(Udp, Closed(t.inp)).good == done + more
    requires Frames(t.out) <= Bodies(done + more)
    ensures
      var gs := Judge(Udp, Closed(h)).good;
      done + more <= gs && Frames(t.out) <= Bodies(gs)
  {
    hide Frames, Closed, Judge, Bodies;
    var rest := h[|t.inp|..];
    assert h == t.inp + rest;
    FramesGrow(t.inp, rest);
    JudgeGrow(Closed(t.inp), Closed(h));
    CutsGrow(done + more, Judge(Udp, Closed(h)).good);
  }

  /** What the receiver has delivered, measured against any history of finished
      frames its input is on its way to: nothing but the accepted frames, in order. */
  lemma ReceiverDelivers(r: Receiver, h: seq<Beat>)
    requires r.Valid() && Open(h) == [] && r.log.t.inp <= h
    ensures r.log.hdrs <= Blocks(Judge(Udp, Closed(h)).good)
    ensures Frames(r.log.t.out) <= Bodies(Judge(Udp, Closed(h)).good)
  {
    var t, done, block := r.log.t, r.log.done, r.regs.block;
    var gs := Judge(Udp, Closed(h)).good;
    hide Idle, Streaming, Draining, Finished, Discarding, Judge, Closed, Frames, Bodies, Blocks;
    match r.state {
      case Ready => FromIdle(t, done, r.B, h);
      case Output => WhenStreaming(t, done, r.B, block, r.regs.hold, r.regs.left, h);
      case OutputLast => FromDraining(t, done, r.B, block, r.regs.hold[..r.regs.left], h);
      case Dropping => FromDiscarding(t, done, r.B, h);
      case WaitFin =>
        if r.log.good { FromFinished(t, done, r.B, block, r.log.body, h); } else { FromIdle(t, done, r.B, h); }
    }
    BlocksPrefix(done, gs, r.hdrState.HdrWaitFin? && r.log.good, block);
  }

  lemma FromIdle(t: Trace, done: seq<seq<byte>>, B: nat, h: seq<Beat>)
    requires Idle(t, done, B) && t.inp <= h
    ensures done <= Judge(Udp, Closed(h)).good && Frames(t.out) <= Bodies(Judge(Udp, Closed(h)).good)
  {
    hide Frames, Closed, Judge, Bodies;
    assert done + [] == done;
    WhenClosed(t, done, [], h);
  }

  lemma FromDiscarding(t: Trace, done: seq<seq<byte>>, B: nat, h: seq<Beat>)
    requires Discarding(t, done, B) && t.inp <= h
    ensures done <= Judge(Udp, Closed(h)).good && Frames(t.out) <= Bodies(Judge(Udp, Closed(h)).good)
  {
    hide Frames, Closed, Judge, Bodies;
    assert done + [] == done;
    WhenClosed(t, done, [], h);
  }

  lemma FromDraining(t: Trace, done: seq<seq<byte>>, B: nat, block: seq<byte>, rest: seq<byte>, h: seq<Beat>)
    requires Draining(t, done, B, block, rest) && t.inp <= h
    ensures
      var gs := Judge(Udp, Closed(h)).good;
      && done <= gs && Frames(t.out) <= Bodies(gs)
      && |done| < |gs| && block <= gs[|done|]
  {
    hide Frames, Closed, Judge, Bodies, Payload;
    var g := block + (Pending(t.out) + rest);
    CutsGrow(done, done + [g]);
    WhenClosed(t, done, [g], h);
    assert (done + [g])[|done|] == g;
  }

  lemma FromFinished(t: Trace, done: seq<seq<byte>>, B: nat, block: seq<byte>, body: seq<byte>, h: seq<Beat>)
    requires Finished(t, done, B, block, body) && t.inp <= h
    ensures
      var gs := Judge(Udp, Closed(h)).good;
      && done <= gs && Frames(t.out) <= Bodies(gs)
      && |done| < |gs| && block <= gs[|done|]
  {
    hide Frames, Closed, Judge, Bodies, Payload;
    PushGood(done, block, body);
    WhenClosed(t, done, [block + body], h);
    assert (done + [block + body])[|done|] == block + body;
  }

  /** The receiver's beat fits when the front end's does and the lengths agree. */
  lemma UdpFits(sent: seq<Beat>, b: Beat, h: seq<Beat>, s: Shape)
    requires ShapeOk(s) && Reliable(h, s) && s.M == BLOCK && BLOCK < s.B && sent + [b] <= h && AllSame(Frames(h))
    ensures OnBus(b, s.B) && Fits(Pending(sent), b, s.B)
  {
    hide Open, Closed, Frames, Payload, Pending;
    NextFits(sent, b, h, s);
    var f := NextBeat(sent, b, h, s.B);
    FramesAre(h);
    var j :| 0 <= j < |Closed(h)| && Closed(h)[j] == f;
    var g := Payload(f);
    assert Frames(h)[j] == g && Consistent(g, s) && SameLength(g);
    var got := Pending(sent) + b.data;
    assert UdpLen(got) == UdpLen(g) && Strip.Len(got) == Strip.Len(g) by {
      if b.last { assert got[..|g|] == g; } else { assert g[..|got|] == got; }
      SameFields(got, g);
    }
  }

  lemma SameFields(a: seq<byte>, b: seq<byte>)
    requires BLOCK <= |a| && BLOCK <= |b|
    requires |b| <= |a| ==> a[..|b|] == b
    requires |a| < |b| ==> b[..|a|] == a
    ensures UdpLen(a) == UdpLen(b) && Strip.Len(a) == Strip.Len(b)
  {
    if |b| <= |a| {
      forall i | 0 <= i < BLOCK ensures a[i] == b[i] { assert a[..|b|][i] == b[i]; }
    } else {
      forall i | 0 <= i < BLOCK ensures a[i] == b[i] { assert b[..|a|][i] == a[i]; }
    }
  }

  lemma SealKeepsLength(f: seq<byte>)
    requires SameLength(f)
    ensures SameLength(Sealed(f, 18))
  {
  }

  lemma PacketSame(ps: seq<P.Packet>, st: P.State, hdrTaken: bool, hdr: seq<byte>, bodyTaken: bool, b: Beat,
                   current: P.Header, got: seq<byte>, s: Shape)
    requires ShapeOk(s) && s.H == Strip.PSEUDO && s.M == BLOCK && |hdr| == s.H && (hdrTaken ==> HeaderOk(hdr, s))
    requires AllSame(P.Images(ps))
    requires st.Input? ==> HeaderOk(current.bytes, s) && !current.bare
    requires st.Input? && bodyTaken ==> BodyFits(current.bytes, |got|, b) && RepeatsLength(current.bytes, got, b)
    ensures AllSame(P.Images(ps + P.Done(st, hdrTaken, AsHeader(hdr), bodyTaken && b.last, current, got + Bytes(b))))
  {
    hide P.Images;
    var more := P.Done(st, hdrTaken, AsHeader(hdr), bodyTaken && b.last, current, got + Bytes(b));
    if more == [] {
      assert ps + [] == ps;
    } else {
      var p := more[0];
      assert more == [p];
      P.PushPacket(ps, p);
      assert SameLength(P.Image(p)) by { BodySame(current.bytes, got, b, s); }
    }
  }

  lemma BodySame(hdr: seq<byte>, got: seq<byte>, b: Beat, s: Shape)
    requires ShapeOk(s) && s.H == Strip.PSEUDO && s.M == BLOCK && HeaderOk(hdr, s)
    requires b.last && BodyFits(hdr, |got|, b) && RepeatsLength(hdr, got, b)
    ensures SameLength(hdr + (got + Bytes(b)))
  {
    var body, all := got + Bytes(b), got + b.data;
    assert 8 <= |body|;
    assert body[4] == all[4] && body[5] == all[5];
  }

  class Receive {
    const front: Front
    const out: Receiver

    ghost predicate Valid()
      reads this, front, front.ins, front.eng, front.eng.pipe, front.eng.ins, front.eng.skid, out
    {
      && front.Valid() && out.Valid() && BLOCK < out.B && front.s == UdpRxShape(out.B)
      && out.log.t.inp == front.eng.skid.sent
      && AllSame(P.Images(front.ins.t.packets))
    }

    constructor (B: nat, levels: nat)
      requires BLOCK < B <= 128 && 2 <= levels <= 8 && B == AdderTree.Pow2(levels)
      ensures Valid() && out.B == B
      ensures fresh(front) && fresh(front.ins) && fresh(front.eng) && fresh(front.eng.pipe)
      ensures fresh(front.eng.ins) && fresh(front.eng.skid) && fresh(out)
      ensures front.ins.t == P.Trace([], [], [], []) && out.log == Log(Trace([], []), [], [], false, [])
    {
      assert B % 2 == 0;
      front := new Front(UdpRxShape(B), levels);
      out := new Receiver(B);
    }

    /** The handshakes of a clock edge. */
    method Advance(hdrVal: bool, hdr: seq<byte>, dataVal: bool, beat: Beat, fifoRdy: bool,
                showData: bool, showEntry: bool, dstHdrRdy: bool, dstDataRdy: bool)
      returns (respRdy: bool, outHdrVal: bool, outHdr: seq<byte>, outVal: bool, emitted: Beat)
      requires Valid()
      requires |hdr| == front.s.H && (hdrVal && front.HdrRdy() ==> HeaderOk(hdr, front.s)) && OnBus(beat, front.s.B)
      requires dataVal && front.DataRdy(fifoRdy) ==>
        && BodyFits(front.ins.current.bytes, |Pending(front.ins.t.dataIn)|, beat)
        && RepeatsLength(front.ins.current.bytes, Pending(front.ins.t.dataIn), beat)
      modifies front.ins, front.eng, front.eng.pipe, front.eng.ins, front.eng.skid, out
      ensures Valid()
      ensures front.ins.t.headers == old(front.ins.t.headers) + Maybe(hdrVal && old(front.HdrRdy()), AsHeader(hdr))
      ensures front.ins.t.dataIn == old(front.ins.t.dataIn) + Maybe(dataVal && old(front.DataRdy(fifoRdy)), beat)
      ensures outHdrVal == old(out.hdrState).HdrOutput?
      ensures outVal == (old(out.state).OutputLast? || (old(out.state).Output? && old(front.eng.skid.out).Holds?))
      ensures out.log.hdrs == old(out.log.hdrs) + Maybe(outHdrVal && dstHdrRdy, outHdr)
      ensures out.log.t.out == old(out.log.t.out) + Maybe(outVal && dstDataRdy, emitted)
      ensures OnBus(emitted, out.B) && |outHdr| == BLOCK
      ensures respRdy == (old(out.state).Ready? || old(out.state).Dropping? || (old(out.state).Output? && dstDataRdy))
      ensures front.Work() <= old(front.Work()) + (if hdrVal && old(front.HdrRdy()) then front.eng.levels + 10 else 0)
                              + (if dataVal && old(front.DataRdy(fifoRdy)) then front.eng.levels + 7 else 0)
      ensures !(hdrVal && old(front.HdrRdy())) && !(dataVal && old(front.DataRdy(fifoRdy))) && fifoRdy ==>
        && (old(front.ins.state).Last? ==> front.Work() < old(front.Work()))
        && (showData && showEntry && respRdy ==> front.Work() < old(front.Work()) || old(front.eng.Starved()))
      ensures Goes(old(out.state), out.state, old(out.hdrState), old(front.eng.skid.out).Holds?, dstDataRdy)
      ensures exists matches: bool :: out.hdrState == NextHdr(old(out.hdrState), old(out.state), old(front.eng.skid.out).Holds?, matches, dstHdrRdy)
    {
      hide Front.Work, Engine.Starved, Goes, NextHdr, Weight, PathWork, Cost, AllSame, P.Done;
      hide Front.Valid, Receiver.Valid, Fits, Pending, Maybe, Leaving, OnBus, HeaderOk, BodyFits, RepeatsLength, P.Images, SameLength, FieldClear;
      FrontFacts(front);
      var respVal := front.eng.skid.out.Holds?;
      var resp := if respVal then front.eng.skid.out.beat else beat;
      Offer(front, resp);
      PacketSame(front.ins.t.packets, front.ins.state, hdrVal && front.HdrRdy(), hdr, dataVal && front.DataRdy(fifoRdy), beat,
                 front.ins.current, Pending(front.ins.t.dataIn), front.s);
      respRdy, outHdrVal, outHdr, outVal, emitted := out.Step(respVal, resp, dstHdrRdy, dstDataRdy);
      SameBeat(front.eng.skid.out, respVal, resp, respRdy);
      front.Step(hdrVal, hdr, dataVal, beat, fifoRdy, showData, showEntry, respRdy);
      ghost var matches := FieldClear(resp.data);
      assert out.hdrState == NextHdr(old(out.hdrState), old(out.state), respVal, matches, dstHdrRdy);
    }

    /** One clock edge of the whole path, under any valid and ready schedule. */
    method Step(hdrVal: bool, hdr: seq<byte>, dataVal: bool, beat: Beat, fifoRdy: bool,
                showData: bool, showEntry: bool, dstHdrRdy: bool, dstDataRdy: bool)
      returns (outHdrVal: bool, outHdr: seq<byte>, outVal: bool, emitted: Beat)
      requires Valid()
      requires |hdr| == front.s.H && (hdrVal && front.HdrRdy() ==> HeaderOk(hdr, front.s)) && OnBus(beat, front.s.B)
      requires dataVal && front.DataRdy(fifoRdy) ==>
        && BodyFits(front.ins.current.bytes, |Pending(front.ins.t.dataIn)|, beat)
        && RepeatsLength(front.ins.current.bytes, Pending(front.ins.t.dataIn), beat)
      modifies front.ins, front.eng, front.eng.pipe, front.eng.ins, front.eng.skid, out
      ensures Valid()
      ensures front.ins.t.headers == old(front.ins.t.headers) + Maybe(hdrVal && old(front.HdrRdy()), AsHeader(hdr))
      ensures front.ins.t.dataIn == old(front.ins.t.dataIn) + Maybe(dataVal && old(front.DataRdy(fifoRdy)), beat)
      ensures outHdrVal == old(out.hdrState).HdrOutput?
      ensures outVal == (old(out.state).OutputLast? || (old(out.state).Output? && old(front.eng.skid.out).Holds?))
      ensures out.log.hdrs == old(out.log.hdrs) + Maybe(outHdrVal && dstHdrRdy, outHdr)
      ensures out.log.t.out == old(out.log.t.out) + Maybe(outVal && dstDataRdy, emitted)
      ensures OnBus(emitted, out.B) && |outHdr| == BLOCK
      // With the FIFOs showing their heads, only what comes in adds work, and a cycle does some
      // unless the path is stalled.
      ensures fifoRdy && showData && showEntry ==>
        Work() <= old(Work()) + Cost(hdrVal && old(front.HdrRdy()), dataVal && old(front.DataRdy(fifoRdy)), front.eng.levels)
      ensures fifoRdy && showData && showEntry && !(hdrVal && old(front.HdrRdy())) && !(dataVal && old(front.DataRdy(fifoRdy))) ==>
        Work() < old(Work()) || old(Stalled(dstHdrRdy, dstDataRdy))
    {
      hide Front.Work, Engine.Starved, Goes, NextHdr, Weight, PathWork, Cost, Front.Valid, Receiver.Valid, Pending, Maybe, OnBus, HeaderOk, BodyFits, RepeatsLength, Receive.Valid;
      front.eng.StarvedEmpty();
      Twins();
      WorkIs();
      var respRdy;
      respRdy, outHdrVal, outHdr, outVal, emitted := Advance(hdrVal, hdr, dataVal, beat, fifoRdy, showData, showEntry, dstHdrRdy, dstDataRdy);
      ghost var respVal := old(front.eng.skid.out).Holds?;
      ghost var matches :| out.hdrState == NextHdr(old(out.hdrState), old(out.state), respVal, matches, dstHdrRdy);
      WeightFalls(old(out.state), out.state, old(out.hdrState), respVal, matches, dstHdrRdy, dstDataRdy);
      WorkIs();
      if fifoRdy && showData && showEntry {
        PathFalls(old(front.Work()), front.Work(), old(Weight(out.state, out.hdrState)), Weight(out.state, out.hdrState),
                  hdrVal && old(front.HdrRdy()), dataVal && old(front.DataRdy(fifoRdy)), front.eng.levels,
                  old(front.ins.state).Last?, respVal && respRdy,
                  (old(out.state).OutputLast? && dstDataRdy) || (old(out.hdrState).HdrOutput? && dstHdrRdy)
                  || (old(out.state).WaitFin? && old(out.hdrState).HdrWaitFin?),
                  old(front.eng.Starved()), respRdy);
      }
    }

    lemma Twins()
      requires Valid()
      ensures out.state.Ready? <==> out.hdrState.Waiting?
    {
      hide Front.Valid, AllSame;
      TwinIdle(out);
    }

    /** What is left to do on the path. */
    ghost function Work(): nat
      reads this, front, front.ins, front.eng, front.eng.pipe, front.eng.ins, front.eng.skid, out
    {
      PathWork(front.Work(), Weight(out.state, out.hdrState))
    }

    lemma WorkIs()
      ensures Work() == PathWork(front.Work(), Weight(out.state, out.hdrState))
    {
    }

    /** No part of the path can move. */
    ghost predicate Stalled(dstHdrRdy: bool, dstDataRdy: bool)
      reads this, front, front.ins, front.eng, front.eng.pipe, front.eng.ins, front.eng.skid, out
    {
      && !front.ins.state.Last?
      && (front.eng.Starved() || !(out.state.Ready? || out.state.Dropping? || (out.state.Output? && dstDataRdy)))
      && !(out.state.OutputLast? && dstDataRdy) && !(out.hdrState.HdrOutput? && dstHdrRdy)
      && !(out.state.WaitFin? && out.hdrState.HdrWaitFin?)
    }

    /** Conservation on beats: with nothing inside, every accepted frame has been delivered. */
    lemma CompleteBeats() returns (h: seq<Beat>)
      requires Valid() && front.ins.state.Ready? && front.eng.Quiet() && out.state.Ready?
      ensures Reliable(h, front.s) && Frames(h) == SealedImages(front.ins.t.packets, front.s)
      ensures out.log.hdrs == Blocks(Judge(Udp, Closed(h)).good)
      ensures Frames(out.log.t.out) == Bodies(Judge(Udp, Closed(h)).good)
      ensures front.ins.t.headers == P.Headers(front.ins.t.packets)
    {
      hide Front.Valid, Receiver.Valid, Blocks, Bodies, Frames, Judge, Closed, SealedImages, P.Headers;
      h := front.eng.skid.sent;
      front.Complete();
      ReceiverIdle(out);
    }

    /** On beats: only accepted frames have produced anything, each header and payload in
        order, out of a history whose frames are the frames taken, with the field sealed. */
    lemma CorrectBeats() returns (h: seq<Beat>)
      requires Valid()
      ensures Reliable(h, front.s) && Frames(h) <= SealedImages(front.ins.t.packets, front.s)
      ensures out.log.hdrs <= Blocks(Judge(Udp, Closed(h)).good)
      ensures Frames(out.log.t.out) <= Bodies(Judge(Udp, Closed(h)).good)
    {
      hide Front.Valid, Receiver.Valid, Blocks, Bodies, Frames, Judge, Closed, SealedImages;
      h := front.Correct();
      ReceiverDelivers(out, h);
    }

    /** Conservation: with nothing inside, the headers and payloads delivered are those that
        the sums of the frames taken admit, all of them. */
    lemma Complete()
      requires Valid() && front.ins.state.Ready? && front.eng.Quiet() && out.state.Ready?
      ensures out.log.hdrs == Blocks(Deemed(P.Images(front.ins.t.packets), out.B).good)
      ensures Frames(out.log.t.out) == Bodies(Deemed(P.Images(front.ins.t.packets), out.B).good)
      ensures front.ins.t.headers == P.Headers(front.ins.t.packets)
    {
      hide Front.Valid, Receiver.Valid, Blocks, Bodies, Frames, Judge, Closed, P.Images, P.Headers, Deemed, Engine.Quiet;
      var h := CompleteBeats();
      ImagesLong(front);
      var fs := P.Images(front.ins.t.packets);
      assert fs[..|fs|] == fs;
      SealAllAt(fs, 18);
      VerdictOf(h, fs, |fs|, front.s);
    }

    /** In every reachable state, the headers and payloads delivered are, in order, among those
        that the sums of the frames taken admit: a frame produces a header or a data beat only
        if its RFC 1071 sum is all ones (`OnlyRight`), and without wrong frames of one beat
        every frame with such a sum is admitted (`EveryRight`). */
    lemma Correct()
      requires Valid()
      ensures out.log.hdrs <= Blocks(Deemed(P.Images(front.ins.t.packets), out.B).good)
      ensures Frames(out.log.t.out) <= Bodies(Deemed(P.Images(front.ins.t.packets), out.B).good)
    {
      hide Front.Valid, Receiver.Valid, Blocks, Bodies, Frames, Judge, Closed, P.Images, Deemed;
      var h := CorrectBeats();
      ImagesLong(front);
      var fs, n := P.Images(front.ins.t.packets), |Frames(h)|;
      SealAllAt(fs, 18);
      VerdictOf(h, fs, n, front.s);
      DeemedGrow(fs[..n], fs, out.B);
      CutsGrow(Deemed(fs[..n], out.B).good, Deemed(fs, out.B).good);
    }
  }

  lemma ImagesLong(front: Front)
    requires front.Valid() && front.s.M == BLOCK
    ensures forall j :: 0 <= j < |P.Images(front.ins.t.packets)| ==> BLOCK <= |P.Images(front.ins.t.packets)[j]|
  {
    FrontFacts(front);
    hide Front.Valid, P.Images;
  }

  /** The verdict on a history whose frames are the first `n` of `fs`, sealed. */
  lemma VerdictOf(h: seq<Beat>, fs: seq<seq<byte>>, n: nat, s: Shape)
    requires Reliable(h, s) && s.K == 18 && BLOCK < s.B && n <= |fs| && n == |Frames(h)| && Frames(h) <= SealAll(fs, 18)
    requires forall j :: 0 <= j < |fs| ==> BLOCK <= |fs[j]|
    ensures Judge(Udp, Closed(h)) == Deemed(fs[..n], s.B)
  {
    hide Closed, Frames, Open, Payload, Judge, Deemed, SealAll, Sealed, Consistent;
    SealAllAt(fs, 18);
    HistoryProper(h);
    HistoryClean(h, s.B);
    FramesAre(h);
    JudgeIsDeemed(Closed(h), fs[..n], s.B);
  }

  lemma TwinIdle(r: Receiver)
    requires r.Valid()
    ensures r.state.Ready? <==> r.hdrState.Waiting?
  {
  }

  lemma ReceiverIdle(r: Receiver)
    requires r.Valid() && r.state.Ready?
    ensures r.log.hdrs == Blocks(Judge(Udp, Closed(r.log.t.inp)).good)
    ensures Frames(r.log.t.out) == Bodies(Judge(Udp, Closed(r.log.t.inp)).good)
  {
  }

  lemma Offer(front: Front, resp: Beat)
    requires front.Valid() && front.s.M == BLOCK && front.s.K == 18 && BLOCK < front.s.B
    requires AllSame(P.Images(front.ins.t.packets))
    requires front.eng.skid.out.Holds? ==> resp == front.eng.skid.out.beat
    ensures front.eng.skid.out.Holds? ==> OnBus(resp, front.s.B) && Fits(Pending(front.eng.skid.sent), resp, front.s.B)
  {
    hide Front.Valid, Fits, Pending, Reliable, Frames, P.Images, SameLength, SealAll, Sealed;
    FrontFacts(front);
    if front.eng.skid.out.Holds? {
      var h := front.Correct();
      assert Item(front.eng.skid.out) == [resp];
      var fs, gs := P.Images(front.ins.t.packets), Frames(h);
      SealAllAt(fs, 18);
      forall i | 0 <= i < |gs| ensures SameLength(gs[i]) {
        SealKeepsLength(fs[i]);
      }
      UdpFits(front.eng.skid.sent, resp, h, front.s);
    }
  }
}
