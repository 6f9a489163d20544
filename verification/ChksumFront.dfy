/** An input controller wired to a checksum engine, as in the UDP transmit, UDP
    receive and TCP transmit paths: header blocks and payload beats go in, sealed
    frames come out. */
module ChksumFront {
  import opened Streams
  import opened Parsing
  import AdderTree
  import opened ChksumSpec
  import opened ChksumEngine
  import opened Sealing
  import opened SkidBuffer
  import P = PrefixInserter
  import opened PseudoStripper

  /** What the three paths differ in: `H` header bytes held back, checksum field at
      byte `K` of the frame, frames of at least `M` bytes. */
  datatype Shape = Shape(B: nat, H: nat, K: nat, M: nat)

  predicate ShapeOk(s: Shape) {
    && PSEUDO <= s.H <= s.M && PSEUDO < s.M && s.H <= s.B && s.B % 2 == 0 && PSEUDO < s.B
    && 10 <= s.K && s.K + 1 < s.M && s.K + 2 <= s.B <= s.K + 129
  }

  /** The command every path issues: insert, `B - 2 - K` lanes from the low end, which the
      UDP controllers cut to seven bits. `ShapeOk` bounds the bus so that nothing is lost. */
  function Command(s: Shape): (c: Cmd)
    requires ShapeOk(s)
    ensures c.enable && c.offset + 2 + s.K == s.B
  {
    Cmd(true, (s.B - 2 - s.K) % 128)
  }

  /** The header block as the controller sees it: no payload when the length field
      covers the header block alone. */
  function AsHeader(bytes: seq<byte>): (h: P.Header)
    requires PSEUDO <= |bytes|
    ensures h.bytes == bytes
  {
    P.Header(bytes, PSEUDO + Len(bytes) == |bytes|)
  }

  predicate HeaderOk(bytes: seq<byte>, s: Shape) {
    PSEUDO <= |bytes| == s.H && s.M <= PSEUDO + Len(bytes)
  }

  /** A payload beat keeps the promise of the header's length field. */
  predicate BodyFits(hdr: seq<byte>, got: nat, b: Beat)
    requires PSEUDO <= |hdr|
  {
    if b.last then |hdr| + got + |Bytes(b)| == PSEUDO + Len(hdr)
    else |hdr| + got + |b.data| < PSEUDO + Len(hdr)
  }

  /** A frame is as long as its length field says. */
  predicate Consistent(f: seq<byte>, s: Shape) {
    PSEUDO <= |f| && s.M <= |f| && |f| == PSEUDO + Len(f)
  }

  ghost predicate AllConsistent(fs: seq<seq<byte>>, s: Shape) {
    forall i :: 0 <= i < |fs| ==> Consistent(fs[i], s)
  }

  ghost predicate AllUnder(fed: seq<Tagged>, cmd: Cmd) {
    forall i :: 0 <= i < |fed| ==> fed[i].cmd == cmd
  }

  lemma ImageConsistent(bytes: seq<byte>, body: seq<byte>, s: Shape)
    requires ShapeOk(s) && HeaderOk(bytes, s) && |bytes| + |body| == PSEUDO + Len(bytes)
    ensures Consistent(bytes + body, s)
  {
  }

  /** Sealing writes past the length field. */
  lemma SealConsistent(f: seq<byte>, s: Shape)
    requires ShapeOk(s) && Consistent(f, s)
    ensures Consistent(Sealed(f, s.K), s) && Sealed(f, s.K)[..10] == f[..10]
  {
  }

  /** What the packets of a list become. */
  function SealedImages(ps: seq<P.Packet>, s: Shape): seq<seq<byte>> {
    SealAll(P.Images(ps), s.K)
  }

  /** A history the output controllers can rely on: finished clean frames, each as
      long as its length field says. */
  ghost predicate Reliable(h: seq<Beat>, s: Shape) {
    && Open(h) == [] && AllClean(h, s.B) && AllConsistent(Frames(h), s)
  }

  /** The next beat on its way to a reliable history fits the length field. */
  lemma NextFits(sent: seq<Beat>, b: Beat, h: seq<Beat>, s: Shape)
    requires ShapeOk(s) && Reliable(h, s) && sent + [b] <= h
    ensures OnBus(b, s.B) && Fits(Pending(sent), b, s.B)
  {
    hide Open, Closed, Frames, Payload, Pending;
    var f := NextBeat(sent, b, h, s.B);
    FramesAre(h);
    var j :| 0 <= j < |Closed(h)| && Closed(h)[j] == f;
    var g := Payload(f);
    assert Frames(h)[j] == g && Consistent(g, s);
    var got := Pending(sent) + b.data;
    assert Len(got) == Len(g) by {
      if b.last { assert got[..|g|] == g; } else { assert g[..|got|] == got; }
      FieldOfPrefix(got, g);
    }
  }

  lemma FieldOfPrefix(a: seq<byte>, b: seq<byte>)
    requires PSEUDO <= |a| && PSEUDO <= |b|
    requires |b| <= |a| ==> a[..|b|] == b
    requires |a| < |b| ==> b[..|a|] == a
    ensures Len(a) == Len(b)
  {
    if |b| <= |a| {
      assert b[8] == a[..|b|][8] && b[9] == a[..|b|][9];
    } else {
      assert a[8] == b[..|a|][8] && a[9] == b[..|a|][9];
    }
  }

  lemma {:induction false} ImagesGrow(a: seq<P.Packet>, b: seq<P.Packet>, s: Shape)
    requires a <= b
    ensures SealedImages(a, s) <= SealedImages(b, s) && P.Images(a) <= P.Images(b)
    decreases |b|
  {
    if a != b {
      assert a <= b[..|b| - 1];
      ImagesGrow(a, b[..|b| - 1], s);
    }
  }

  /** The cycles that a controller state still costs the engine. */
  function Owing(st: P.State, levels: nat): nat {
    match st
    case Ready => 0
    case Input => levels + 10
    case Last => levels + 9
  }

  lemma OwingFalls(st: P.State, hdrTaken: bool, hdr: seq<byte>, dataTaken: bool, beat: Beat, fed: bool, emitted: Beat, st1: P.State, levels: nat)
    requires PSEUDO <= |hdr| && st1 == P.Next(st, hdrTaken, AsHeader(hdr).bare, dataTaken && beat.last, fed, emitted.last)
    requires (hdrTaken ==> st.Ready?) && (dataTaken ==> st.Input?)
    requires (fed ==> !st.Ready? && (st.Input? ==> dataTaken))
    ensures Owing(st1, levels) + (if fed then levels + 7 else 0)
      <= Owing(st, levels) + (if hdrTaken then levels + 10 else 0) + (if dataTaken then levels + 7 else 0)
    ensures st.Last? && fed ==> Owing(st1, levels) + levels + 7 < Owing(st, levels)
    ensures !hdrTaken && !dataTaken && !st.Last? ==> st1 == st && !fed
    ensures !hdrTaken && !st.Input? ==> !st1.Input?
  {
  }

  /** A path is a front and an output controller behind it. A beat that the controller takes
      costs at most five cycles there, and the front is one lighter for it. */
  function PathWork(front: nat, weight: nat): nat {
    8 * front + weight
  }

  /** What comes into a path costs. */
  function Cost(inHdr: bool, inData: bool, levels: nat): nat {
    (if inHdr then 8 * (levels + 11) else 0) + (if inData then 8 * (levels + 8) else 0)
  }

  lemma PathFalls(w: nat, w1: nat, x: nat, x1: nat, inHdr: bool, inData: bool, levels: nat, last: bool, took: bool, moves: bool,
                  starved: bool, respRdy: bool)
    requires w1 <= w + (if inHdr then levels + 10 else 0) + (if inData then levels + 7 else 0)
    requires !inHdr && !inData ==> (last ==> w1 < w) && (respRdy ==> w1 < w || starved)
    requires x1 <= x + (if took then 5 else 0) && (moves ==> x1 < x)
    requires took ==> respRdy && !starved
    ensures PathWork(w1, x1) <= PathWork(w, x) + Cost(inHdr, inData, levels)
    ensures !inHdr && !inData && (took || moves || last || (respRdy && !starved)) ==> PathWork(w1, x1) < PathWork(w, x)
  {
  }

  class Front {
    const s: Shape
    const ins: P.Inserter
    const eng: Engine

    ghost predicate Valid()
      reads this, ins, eng, eng.pipe, eng.ins, eng.skid
    {
      && ShapeOk(s)
      && ins.Valid() && eng.Valid() && ins.B == eng.B == s.B && ins.H == s.H
      && (ins.state.Ready? <==> !eng.pipe.transfer)
      && (eng.pipe.transfer ==> eng.pipe.cmd == Command(s))
      && Beats(eng.pipe.t.fed) == ins.t.out && AllUnder(eng.pipe.t.fed, Command(s))
      && AllConsistent(P.Images(ins.t.packets), s)
      && (ins.state.Input? ==> HeaderOk(ins.current.bytes, s) && !ins.current.bare)
    }

    constructor (s: Shape, levels: nat)
      requires ShapeOk(s) && 2 <= levels <= 8 && s.B == AdderTree.Pow2(levels)
      ensures Valid() && this.s == s
      ensures fresh(ins) && fresh(eng) && fresh(eng.pipe) && fresh(eng.ins) && fresh(eng.skid)
      ensures ins.t == P.Trace([], [], [], []) && eng.skid.sent == [] && eng.skid.out.Empty?
    {
      this.s := s;
      ins := new P.Inserter(s.B, s.H);
      eng := new Engine(levels);
    }

    /** What is left to do: the engine's rank, and the beats the controller still owes it. */
    ghost function Work(): nat
      reads this, ins, eng, eng.pipe, eng.ins, eng.skid
    {
      eng.Rank() + Owing(ins.state, eng.levels)
    }

    lemma WorkIs()
      ensures Work() == eng.Rank() + Owing(ins.state, eng.levels)
    {
    }

    /** Whether the controller would take a header, or a payload beat, this cycle. */
    predicate HdrRdy()
      reads ins, eng, eng.pipe
    {
      ins.state.Ready? && !eng.pipe.transfer
    }

    predicate DataRdy(fifoRdy: bool)
      reads ins, eng, eng.pipe
    {
      ins.state.Input? && eng.pipe.transfer && fifoRdy
    }

    /** One clock edge. */
    method Step(hdrVal: bool, hdr: seq<byte>, dataVal: bool, beat: Beat, fifoRdy: bool,
                showData: bool, showEntry: bool, respRdy: bool)
      requires Valid()
      requires |hdr| == s.H && (hdrVal && HdrRdy() ==> HeaderOk(hdr, s)) && OnBus(beat, s.B)
      requires dataVal && DataRdy(fifoRdy) ==> BodyFits(ins.current.bytes, |Pending(ins.t.dataIn)|, beat)
      modifies ins, eng, eng.pipe, eng.ins, eng.skid
      ensures Valid()
      ensures ins.t.headers == old(ins.t.headers) + Maybe(hdrVal && old(HdrRdy()), AsHeader(hdr))
      ensures ins.t.dataIn == old(ins.t.dataIn) + Maybe(dataVal && old(DataRdy(fifoRdy)), beat)
      ensures eng.skid.sent == old(eng.skid.sent) + Leaving(old(eng.skid.out), respRdy)
      ensures ins.t.packets == old(ins.t.packets)
        + P.Done(old(ins.state), hdrVal && old(HdrRdy()), AsHeader(hdr), dataVal && old(DataRdy(fifoRdy)) && beat.last,
                 old(ins.current), Pending(old(ins.t.dataIn)) + Bytes(beat))
      ensures !(hdrVal && old(HdrRdy())) && !old(ins.state).Input? ==> !ins.state.Input?
      // Only what comes in adds work, and a cycle without stalls does some.
      ensures Work() <= old(Work()) + (if hdrVal && old(HdrRdy()) then eng.levels + 10 else 0)
                        + (if dataVal && old(DataRdy(fifoRdy)) then eng.levels + 7 else 0)
      ensures !(hdrVal && old(HdrRdy())) && !(dataVal && old(DataRdy(fifoRdy))) && fifoRdy ==>
        && (old(ins.state).Last? ==> Work() < old(Work()))
        && (showData && showEntry && respRdy ==> Work() < old(Work()) || old(eng.Starved()))
    {
      hide P.Inserter.Valid, Engine.Valid, Consistent, AllUnder, Pending, P.Images, Beats, Leaving, BodyFits, Work, Owing, Engine.Rank, Engine.Starved;
      var cmdRdy, reqRdy := !eng.pipe.transfer, eng.pipe.transfer && fifoRdy;
      ghost var fed := eng.pipe.t.fed;
      WorkIs();
      var hdrRdy, dataRdy, outVal, emitted := ins.Step(hdrVal, AsHeader(hdr), dataVal, beat, cmdRdy, reqRdy);
      PacketStep(old(ins.t.packets), old(ins.state), hdrVal && hdrRdy, hdr, dataVal && dataRdy, beat,
                 old(ins.current), Pending(old(ins.t.dataIn)), s);
      var cmdTaken, taken := eng.Step(hdrVal && hdrRdy, Command(s), outVal, emitted, fifoRdy, showData, showEntry, respRdy);
      FeedStep(fed, old(ins.t.out), outVal && reqRdy, emitted, Command(s));
      WorkIs();
      OwingFalls(old(ins.state), hdrVal && hdrRdy, hdr, dataVal && dataRdy, beat, outVal && reqRdy, emitted, ins.state, eng.levels);
    }

    /** Conservation: once the controller is ready and the engine quiet, every packet
        taken has left, sealed. */
    lemma Complete()
      requires Valid() && ins.state.Ready? && eng.Quiet()
      ensures Reliable(eng.skid.sent, s)
      ensures Frames(eng.skid.sent) == SealedImages(ins.t.packets, s)
      ensures ins.t.headers == P.Headers(ins.t.packets) && Frames(ins.t.dataIn) == P.Bodies(ins.t.packets)
    {
      hide P.Inserter.Valid, Engine.Quiet, Consistent, P.Images, P.Headers, P.Bodies, Beats, Frames, Outcome, AllUnder, SealAll, Sealed, Open;
      eng.Complete();
      FramesAllOut(ins);
      var fs := Frames(ins.t.out);
      assert ins.t.packets <= ins.t.packets;
      OutcomeReliable(eng.pipe.t.fed, ins.t.out, ins.t.packets, s);
      forall i | 0 <= i < |fs| ensures s.K + 1 < |fs[i]| {
        assert Consistent(fs[i], s);
        LongEnough(fs[i], s);
      }
      EngineSeals(eng.pipe.t.fed, Command(s), s.B, s.K) by { UnderCommand(eng.pipe.t.fed, Command(s)); }
    }

    /** In every reachable state the output, including the beat on offer, is on its
        way to a reliable history: the sealed images of packets taken, in order. */
    lemma Correct() returns (h: seq<Beat>)
      requires Valid()
      ensures Reliable(h, s)
      ensures eng.skid.sent + Item(eng.skid.out) <= h
      ensures Frames(h) <= SealedImages(ins.t.packets, s)
    {
      hide P.Inserter.Valid, Consistent, P.Images, Beats, Frames, Outcome, AllUnder;
      h := Outcome(eng.pipe.t.fed, s.B);
      eng.Correct();
      FramesOut(ins);
      OutcomeReliable(eng.pipe.t.fed, ins.t.out, ins.t.packets, s);
    }
  }

  lemma FramesAllOut(ins: P.Inserter)
    requires ins.Valid() && ins.state.Ready?
    ensures AllClean(ins.t.out, ins.B) && Frames(ins.t.out) == P.Images(ins.t.packets)
    ensures ins.t.headers == P.Headers(ins.t.packets) && Frames(ins.t.dataIn) == P.Bodies(ins.t.packets)
  {
  }

  lemma FrontFacts(front: Front)
    requires front.Valid()
    ensures ShapeOk(front.s) && front.ins.B == front.s.B
    ensures front.ins.state.Input? ==> HeaderOk(front.ins.current.bytes, front.s) && !front.ins.current.bare
  {
  }

  lemma FramesOut(ins: P.Inserter)
    requires ins.Valid()
    ensures AllClean(ins.t.out, ins.B)
    ensures exists ps :: ps <= ins.t.packets && Frames(ins.t.out) == P.Images(ps)
  {
    if ins.state.Last? {
      var ps := ins.t.packets[..|ins.t.packets| - 1];
      assert ps <= ins.t.packets && Frames(ins.t.out) == P.Images(ps);
    } else {
      assert ins.t.packets <= ins.t.packets && Frames(ins.t.out) == P.Images(ins.t.packets);
    }
  }

  lemma OutcomeReliable(fed: seq<Tagged>, out: seq<Beat>, packets: seq<P.Packet>, s: Shape)
    requires ShapeOk(s) && Beats(fed) == out && AllClean(out, s.B) && AllUnder(fed, Command(s))
    requires exists ps :: ps <= packets && Frames(out) == P.Images(ps)
    requires AllConsistent(P.Images(packets), s)
    ensures Reliable(Outcome(fed, s.B), s)
    ensures Frames(Outcome(fed, s.B)) <= SealedImages(packets, s)
  {
    hide Frames, P.Images, Outcome, Sealed, SealAll, Open, Beats, Consistent;
    var ps :| ps <= packets && Frames(out) == P.Images(ps);
    ImagesGrow(ps, packets, s);
    var fs := Frames(out);
    forall i | 0 <= i < |fs| ensures Consistent(fs[i], s) && s.K + 1 < |fs[i]| {
      assert fs[i] == P.Images(packets)[i];
      LongEnough(fs[i], s);
    }
    EngineSeals(fed, Command(s), s.B, s.K);
    SealAllAt(fs, s.K);
    var gs := Frames(Outcome(fed, s.B));
    forall i | 0 <= i < |gs| ensures Consistent(gs[i], s) {
      SealConsistent(fs[i], s);
    }
  }

  lemma UnderCommand(fed: seq<Tagged>, cmd: Cmd)
    requires AllUnder(fed, cmd)
    ensures forall i :: 0 <= i < |fed| ==> fed[i].cmd == cmd
  {
  }

  lemma LongEnough(f: seq<byte>, s: Shape)
    requires ShapeOk(s) && Consistent(f, s)
    ensures s.K + 1 < |f|
  {
  }

  lemma PacketStep(ps: seq<P.Packet>, st: P.State, hdrTaken: bool, hdr: seq<byte>, bodyTaken: bool, b: Beat,
                   current: P.Header, got: seq<byte>, s: Shape)
    requires ShapeOk(s) && |hdr| == s.H && (hdrTaken ==> HeaderOk(hdr, s)) && AllConsistent(P.Images(ps), s)
    requires st.Input? ==> HeaderOk(current.bytes, s)
    requires st.Input? && bodyTaken ==> BodyFits(current.bytes, |got|, b)
    requires st.Input? ==> !current.bare
    ensures AllConsistent(P.Images(ps + P.Done(st, hdrTaken, AsHeader(hdr), bodyTaken && b.last, current, got + Bytes(b))), s)
  {
    hide P.Images, Consistent;
    var more := P.Done(st, hdrTaken, AsHeader(hdr), bodyTaken && b.last, current, got + Bytes(b));
    if more == [] {
      assert ps + [] == ps;
    } else {
      var p := more[0];
      assert more == [p];
      P.PushPacket(ps, p);
      assert Consistent(P.Image(p), s) by {
        if st.Input? {
          ImageConsistent(current.bytes, got + Bytes(b), s);
        } else {
          ImageConsistent(hdr, [], s);
          assert hdr + [] == hdr;
        }
      }
    }
  }

  lemma FeedStep(fed: seq<Tagged>, out: seq<Beat>, fires: bool, b: Beat, cmd: Cmd)
    requires Beats(fed) == out && AllUnder(fed, cmd)
    ensures Beats(fed + Maybe(fires, Tagged(b, cmd))) == out + Maybe(fires, b)
    ensures AllUnder(fed + Maybe(fires, Tagged(b, cmd)), cmd)
  {
    FedOne(fed, fires, Tagged(b, cmd));
  }
}
