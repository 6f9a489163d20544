/** UDP end to end: a transmit path wired to a receive path. */
module UdpLoop {
  import opened Streams
  import opened Parsing
  import opened OnesComplement
  import opened ChksumFront
  import opened Sealing
  import opened ChksumEngine
  import opened Verdicts
  import opened UdpRxOutput
  import opened UdpAccept
  import Strip = PseudoStripper
  import Tx = TxPath
  import Rx = RxPath
  import P = PrefixInserter
  import AdderTree

  /** A datagram as the application hands it over: addresses and ports as bytes,
      and the UDP length, header included. */
  datatype Request = Request(src: seq<byte>, dst: seq<byte>, srcPort: seq<byte>, dstPort: seq<byte>, len: nat)

  predicate RequestOk(r: Request) {
    |r.src| == |r.dst| == 4 && |r.srcPort| == |r.dstPort| == 2 && 8 <= r.len < 0x10000
  }

  function Word(n: nat): seq<byte> {
    [(n / 256) % 256, n % 256]
  }

  /** The pseudo-header: addresses, length, zero, protocol 17. */
  function Pseudo(src: seq<byte>, dst: seq<byte>, len: seq<byte>): seq<byte> {
    src + dst + len + [0, 17]
  }

  /** The block the transmit controller starts from, checksum field cleared. */
  function TxBlock(r: Request): seq<byte> {
    Pseudo(r.src, r.dst, Word(r.len)) + (r.srcPort + r.dstPort + Word(r.len) + [0, 0])
  }

  function UdpTxShape(B: nat): Shape {
    Shape(B, 20, 18, 20)
  }

  /** The receive side rebuilds the pseudo-header from the address and length fields. */
  function Rebuilt(h: seq<byte>): (p: seq<byte>)
    requires |h| == 12
    ensures |p| == 12
  {
    Pseudo(h[..4], h[4..8], h[8..10])
  }

  /** A UDP frame behind its pseudo-header, with every length in agreement. */
  predicate UdpFrame(f: seq<byte>) {
    && BLOCK <= |f| == 12 + Strip.Len(f)
    && UdpLen(f) == Strip.Len(f) && f[10] == 0 && f[11] == 17
  }

  ghost predicate AllUdp(fs: seq<seq<byte>>) {
    forall i :: 0 <= i < |fs| ==> UdpFrame(fs[i])
  }

  predicate GoodBlock(b: seq<byte>) {
    |b| == BLOCK && FieldClear(b) && 8 <= UdpLen(b) == Strip.Len(b) && b[10] == 0 && b[11] == 17
  }

  lemma TxBlockGood(r: Request)
    requires RequestOk(r)
    ensures GoodBlock(TxBlock(r)) && Strip.Len(TxBlock(r)) == r.len
    ensures TxBlock(r)[..4] == r.src && TxBlock(r)[4..8] == r.dst
    ensures TxBlock(r)[12..14] == r.srcPort && TxBlock(r)[14..16] == r.dstPort
  {
    var b := TxBlock(r);
    assert |b| == 20;
    assert b[8] == (r.len / 256) % 256 && b[9] == r.len % 256;
    assert b[16] == (r.len / 256) % 256 && b[17] == r.len % 256;
  }

  lemma RebuiltSame(f: seq<byte>)
    requires UdpFrame(f)
    ensures Rebuilt(f[..12]) == f[..12]
  {
    var h := f[..12];
    assert h == h[..4] + h[4..8] + h[8..10] + h[10..12];
    assert h[10..12] == [0, 17];
  }

  lemma SealedUdp(f: seq<byte>)
    requires UdpFrame(f)
    ensures UdpFrame(Sealed(f, 18))
  {
  }

  lemma {:induction false} Positive(f: seq<byte>, i: nat)
    requires i < |f| && f[i] > 0
    ensures LittleSum(f) > 0
  {
    if i >= 2 { Positive(f[2..], i - 2); }
  }

  /** Sealing twice gives the frame back. */
  lemma SealedBack(f: seq<byte>)
    requires UdpFrame(f) && FieldClear(f)
    ensures Sealed(Sealed(f, 18), 18) == f
  {
    hide LittleSum;
    Positive(f, 11);
    SealTwice(f, 18);
  }

  ghost predicate AllGood(hs: seq<P.Header>) {
    forall i :: 0 <= i < |hs| ==> |hs[i].bytes| >= BLOCK && GoodBlock(hs[i].bytes) && hs[i] == AsHeader(hs[i].bytes)
  }

  /** Every packet taken is a UDP frame with a clear checksum field. */
  lemma FramesTaken(ps: seq<P.Packet>, hs: seq<P.Header>, s: Shape)
    requires AllGood(hs) && P.Headers(ps) <= hs && AllConsistent(P.Images(ps), s) && s.M == BLOCK
    ensures AllUdp(P.Images(ps))
    ensures forall j :: 0 <= j < |ps| ==> FieldClear(P.Image(ps[j])) && GoodBlock(ps[j].hdr.bytes)
  {
    hide P.Headers, P.Images;
    P.HeadersAt(ps);
    forall j | 0 <= j < |ps|
      ensures UdpFrame(P.Image(ps[j])) && FieldClear(P.Image(ps[j])) && GoodBlock(ps[j].hdr.bytes)
    {
      assert hs[j] == ps[j].hdr;
      assert Consistent(P.Images(ps)[j], s);
      ImageUdp(ps[j], s);
    }
  }

  lemma ImageUdp(p: P.Packet, s: Shape)
    requires GoodBlock(p.hdr.bytes) && Consistent(P.Image(p), s) && s.M == BLOCK
    ensures UdpFrame(P.Image(p)) && FieldClear(P.Image(p))
  {
  }

  lemma AllSealedUdp(fs: seq<seq<byte>>)
    requires AllUdp(fs)
    ensures AllUdp(SealAll(fs, 18)) && |SealAll(fs, 18)| == |fs|
  {
    hide SealAll, Sealed, UdpFrame;
    SealAllAt(fs, 18);
    forall i | 0 <= i < |fs| ensures UdpFrame(SealAll(fs, 18)[i]) { SealedUdp(fs[i]); }
  }

  /** The headers wired across, as the receive controller takes them. */
  function Wired(hs: seq<seq<byte>>): seq<P.Header> {
    if hs == [] then []
    else
      var h := hs[|hs| - 1];
      Wired(hs[..|hs| - 1]) + [if |h| == 12 then AsHeader(Rebuilt(h)) else P.Header([], false)]
  }

  lemma PushWired(hs: seq<seq<byte>>, fires: bool, h: seq<byte>)
    requires |h| == 12
    ensures Wired(hs + Maybe(fires, h)) == Wired(hs) + Maybe(fires, AsHeader(Rebuilt(h)))
  {
    if fires { assert (hs + [h])[..|hs|] == hs; } else { assert hs + [] == hs; }
  }

  /** Headers that are heads of UDP frames cross unchanged. */
  lemma {:induction false} WiredAt(hs: seq<seq<byte>>, gs: seq<seq<byte>>)
    requires AllUdp(gs) && hs <= Strip.Heads(gs)
    ensures |Wired(hs)| == |hs| <= |gs|
    ensures forall j :: 0 <= j < |hs| ==> Wired(hs)[j] == P.Header(gs[j][..12], false)
    decreases |hs|
  {
    hide Strip.Heads, Strip.Tails, Rebuilt, Strip.Len;
    Tx.CutsGrow(gs, gs);
    if hs != [] {
      var n := |hs| - 1;
      WiredAt(hs[..n], gs);
      Tx.TailAt(gs, n);
      assert hs[n] == gs[n][..12];
      RebuiltSame(gs[n]);
      HeadBare(gs[n]);
    }
  }

  /** A pseudo-header alone always announces a payload. */
  lemma HeadBare(g: seq<byte>)
    requires UdpFrame(g)
    ensures AsHeader(g[..12]) == P.Header(g[..12], false)
  {
    assert Strip.Len(g[..12]) == Strip.Len(g);
  }

  lemma {:induction false} BodiesAll(ps: seq<P.Packet>)
    requires forall j :: 0 <= j < |ps| ==> !ps[j].hdr.bare
    ensures |P.Bodies(ps)| == |ps|
    ensures forall j :: 0 <= j < |ps| ==> P.Bodies(ps)[j] == ps[j].body
  {
    if ps != [] { BodiesAll(ps[..|ps| - 1]); }
  }

  /** The header the receive side is working under belongs to the frame whose data
      it is about to take. */
  lemma CurrentHeader(ins: P.Inserter, hs: seq<seq<byte>>, gs: seq<seq<byte>>)
    requires ins.Valid() && ins.t.headers == Wired(hs) && AllUdp(gs) && hs <= Strip.Heads(gs)
    ensures Frames(ins.t.dataIn) == P.Bodies(ins.t.packets)
    ensures |Frames(ins.t.dataIn)| == |ins.t.packets| <= |gs|
    ensures forall j :: 0 <= j < |ins.t.packets| ==>
      ins.t.packets[j] == P.Packet(P.Header(gs[j][..12], false), Frames(ins.t.dataIn)[j])
    ensures ins.state.Input? ==>
      |Frames(ins.t.dataIn)| < |gs| && ins.current.bytes == gs[|Frames(ins.t.dataIn)|][..12]
  {
    var ps := ins.t.packets;
    hide P.Headers, P.Bodies, P.Images, Frames, Wired, UdpFrame;
    WiredAt(hs, gs);
    P.HeadersAt(ps);
    assert P.Headers(ps) <= ins.t.headers;
    forall j | 0 <= j < |ps| ensures ps[j].hdr == P.Header(gs[j][..12], false) {
      assert P.Headers(ps)[j] == ins.t.headers[j];
    }
    BodiesAll(ps);
  }

  /** A beat leaving the transmit path keeps the promises the receive path relies on. */
  lemma BeatAcross(out: seq<Beat>, b: Beat, gs: seq<seq<byte>>, hdr: seq<byte>, B: nat)
    requires AllUdp(gs) && OnBus(b, B) && BLOCK < B
    requires Frames(out + [b]) <= Strip.Tails(gs)
    requires Open(out + [b]) != [] ==> Tx.Underway(Pending(out + [b]), Strip.Tails(gs), |Frames(out + [b])|)
    requires |Frames(out)| < |gs| && hdr == gs[|Frames(out)|][..12]
    ensures BodyFits(hdr, |Pending(out)|, b) && Rx.RepeatsLength(hdr, Pending(out), b)
  {
    hide Frames, Open, Payload, Pending, Strip.Tails, Strip.Heads;
    var n := |Frames(out)|;
    var g := gs[n];
    assert UdpFrame(g);
    Tx.TailAt(gs, n);
    Push(out, b);
    if b.last {
      assert Frames(out + [b])[n] == Pending(out) + Bytes(b);
    }
    BodyOf(g, Pending(out), b, hdr);
  }

  lemma BodyOf(g: seq<byte>, got: seq<byte>, b: Beat, hdr: seq<byte>)
    requires UdpFrame(g) && hdr == g[..12]
    requires if b.last then got + Bytes(b) == g[12..]
             else got + b.data <= g[12..] && |got + b.data| < |g| - 12 && 6 <= |b.data|
    ensures BodyFits(hdr, |got|, b) && Rx.RepeatsLength(hdr, got, b)
  {
    var all, body := got + b.data, g[12..];
    assert Strip.Len(hdr) == Strip.Len(g);
    assert body[4] == g[16] && body[5] == g[17];
    assert 8 <= |body|;
    if b.last {
      assert (got + Bytes(b))[4] == all[4] && (got + Bytes(b))[5] == all[5];
    } else {
      assert all[4] == body[4] && all[5] == body[5];
    }
  }

  /** What the receive side has taken is what the transmit side owes. */
  lemma {:induction false} RxImages(ps: seq<P.Packet>, gs: seq<seq<byte>>, fs: seq<seq<byte>>)
    requires AllUdp(gs) && fs <= Strip.Tails(gs) && |ps| == |fs| <= |gs|
    requires forall j :: 0 <= j < |ps| ==> ps[j] == P.Packet(P.Header(gs[j][..12], false), fs[j])
    ensures P.Images(ps) <= gs
  {
    hide Strip.Tails, P.Images;
    P.HeadersAt(ps);
    forall j | 0 <= j < |ps| ensures P.Images(ps)[j] == gs[j] {
      assert UdpFrame(gs[j]);
      Tx.TailAt(gs, j);
      assert gs[j] == gs[j][..12] + gs[j][12..];
    }
  }

  /** Frames with a clear field all pass. */
  lemma AllAccepted(h: seq<Beat>, B: nat)
    requires Open(h) == [] && AllClean(h, B) && BLOCK < B
    requires forall j :: 0 <= j < |Frames(h)| ==> FieldClear(Frames(h)[j])
    ensures Judge(Udp, Closed(h)) == Verdict(Frames(h), false)
  {
    hide Open, Closed, Frames, Payload, Judge;
    var fs := Closed(h);
    FramesAre(h);
    HistoryProper(h);
    HistoryClean(h, B);
    forall j | 0 <= j < |fs| ensures Passes(Udp, fs[j]) {
      assert FieldClear(Frames(h)[j]);
      PassesByBytes(fs[j], B);
    }
    JudgeIsGood(Udp, fs);
    GoodIsAll(fs);
  }

  lemma {:induction false} GoodIsAll(fs: seq<seq<Beat>>)
    requires forall j :: 0 <= j < |fs| ==> Passes(Udp, fs[j])
    ensures |GoodFrames(Udp, fs)| == |fs| && forall j :: 0 <= j < |fs| ==> GoodFrames(Udp, fs)[j] == Payload(fs[j])
  {
    hide Passes, Payload;
    if fs != [] { GoodIsAll(fs[..|fs| - 1]); }
  }

  /** The header blocks of a list of headers. */
  function BlocksOf(hs: seq<P.Header>): seq<seq<byte>> {
    if hs == [] then [] else BlocksOf(hs[..|hs| - 1]) + [hs[|hs| - 1].bytes]
  }

  lemma {:induction false} BlocksOfPrefix(a: seq<P.Header>, b: seq<P.Header>)
    requires a <= b
    ensures BlocksOf(a) <= BlocksOf(b)
    decreases |b|
  {
    if a != b {
      assert a <= b[..|b| - 1];
      BlocksOfPrefix(a, b[..|b| - 1]);
    }
  }

  /** Cutting the transmitted frames gives back the header blocks and the payloads. */
  lemma {:induction false} CutBack(ps: seq<P.Packet>)
    requires forall j :: 0 <= j < |ps| ==> |ps[j].hdr.bytes| == BLOCK && (ps[j].hdr.bare <==> |P.Image(ps[j])| == BLOCK)
    ensures Blocks(P.Images(ps)) == BlocksOf(P.Headers(ps))
    ensures Bodies(P.Images(ps)) == P.Bodies(ps)
  {
    if ps != [] {
      var init, p := ps[..|ps| - 1], ps[|ps| - 1];
      assert ps == init + [p];
      CutBack(init);
      var body := if p.hdr.bare then [] else p.body;
      assert P.Image(p) == p.hdr.bytes + body;
      assert (P.Headers(init) + [p.hdr])[..|P.Headers(init)|] == P.Headers(init);
      P.PushPacket(init, p);
      hide Blocks, Bodies, P.Images, P.Headers, P.Bodies;
      PushGood(P.Images(init), p.hdr.bytes, body);
    }
  }

  /** The frames owed by a transmit path that was given good UDP header blocks. */
  lemma Owed(tx: Tx.Transmit) returns (gs: seq<seq<byte>>)
    requires tx.Valid() && tx.front.s == UdpTxShape(tx.front.s.B) && AllGood(tx.front.ins.t.headers)
    ensures gs == SealedImages(tx.front.ins.t.packets, tx.front.s) && AllUdp(gs)
    ensures tx.out.log.hdrs <= Strip.Heads(gs) && Frames(tx.out.log.t.out) <= Strip.Tails(gs)
    ensures Open(tx.out.log.t.out) != [] ==>
      Tx.Underway(Pending(tx.out.log.t.out), Strip.Tails(gs), |Frames(tx.out.log.t.out)|)
  {
    hide Frames, Strip.Tails, Strip.Heads, Tx.Underway, Pending, P.Images, SealAll, UdpFrame;
    gs := SealedImages(tx.front.ins.t.packets, tx.front.s);
    tx.Correct();
    TxTaken(tx);
    AllSealedUdp(P.Images(tx.front.ins.t.packets));
  }

  lemma TxTaken(tx: Tx.Transmit)
    requires tx.Valid() && tx.front.s == UdpTxShape(tx.front.s.B) && AllGood(tx.front.ins.t.headers)
    ensures
      var ps := tx.front.ins.t.packets;
      && AllUdp(P.Images(ps)) && P.Headers(ps) <= tx.front.ins.t.headers
      && Frames(tx.front.ins.t.dataIn) == P.Bodies(ps)
      && (forall j :: 0 <= j < |ps| ==> FieldClear(P.Image(ps[j])) && GoodBlock(ps[j].hdr.bytes))
      && (forall j :: 0 <= j < |ps| ==> (ps[j].hdr.bare <==> |P.Image(ps[j])| == BLOCK))
  {
    hide Frames, P.Headers, P.Images, P.Bodies, UdpFrame, FieldClear;
    var ins, s := tx.front.ins, tx.front.s;
    assert AllConsistent(P.Images(ins.t.packets), s);
    HeadersTaken(ins);
    FramesTaken(ins.t.packets, ins.t.headers, s);
    P.HeadersAt(ins.t.packets);
    forall j | 0 <= j < |ins.t.packets|
      ensures ins.t.packets[j].hdr.bare <==> |P.Image(ins.t.packets[j])| == BLOCK
    {
      var p := ins.t.packets[j];
      assert p.hdr == ins.t.headers[j] && Consistent(P.Images(ins.t.packets)[j], s);
      BareIff(p, s);
    }
  }

  lemma HeadersTaken(ins: P.Inserter)
    requires ins.Valid()
    ensures P.Headers(ins.t.packets) <= ins.t.headers && Frames(ins.t.dataIn) == P.Bodies(ins.t.packets)
  {
  }

  lemma BareIff(p: P.Packet, s: Shape)
    requires GoodBlock(p.hdr.bytes) && p.hdr == AsHeader(p.hdr.bytes) && Consistent(P.Image(p), s)
    ensures p.hdr.bare <==> |P.Image(p)| == BLOCK
  {
  }

  lemma GoodMore(hs: seq<P.Header>, fires: bool, r: Request)
    requires AllGood(hs) && RequestOk(r)
    ensures AllGood(hs + Maybe(fires, AsHeader(TxBlock(r))))
  {
    hide GoodBlock;
    TxBlockGood(r);
    TxBlockLength(r);
  }

  lemma TxBlockLength(r: Request)
    requires RequestOk(r)
    ensures |TxBlock(r)| == BLOCK
  {
  }

  lemma EvenBus(levels: nat)
    requires 2 <= levels
    ensures AdderTree.Pow2(levels) % 2 == 0
  {
  }

  /** What a header and a data beat that cross in one cycle cost the receive path at most. */
  const CROSSING: nat := 280

  lemma CrossingCost(rx: Rx.Receive, inHdr: bool, inData: bool)
    requires rx.Valid()
    ensures Cost(inHdr, inData, rx.front.eng.levels) <= (if inHdr || inData then CROSSING else 0)
  {
  }

  class Loop {
    const tx: Tx.Transmit
    const rx: Rx.Receive

    ghost predicate Apart()
      reads this, tx, tx.front, tx.front.eng, rx, rx.front, rx.front.eng
    {
      && tx.front.ins != rx.front.ins && tx.front.eng != rx.front.eng && tx.front.eng.pipe != rx.front.eng.pipe
      && tx.front.eng.ins != rx.front.eng.ins && tx.front.eng.skid != rx.front.eng.skid
    }

    ghost predicate Valid()
      reads this, tx, tx.front, tx.front.ins, tx.front.eng, tx.front.eng.pipe, tx.front.eng.ins, tx.front.eng.skid, tx.out
      reads rx, rx.front, rx.front.ins, rx.front.eng, rx.front.eng.pipe, rx.front.eng.ins, rx.front.eng.skid, rx.out
    {
      && Apart() && tx.Valid() && rx.Valid()
      && tx.front.s == UdpTxShape(rx.out.B) && AllGood(tx.front.ins.t.headers)
      && rx.front.ins.t.headers == Wired(tx.out.log.hdrs)
      && rx.front.ins.t.dataIn == tx.out.log.t.out
    }

    constructor (B: nat, levels: nat)
      requires BLOCK < B <= 128 && 2 <= levels <= 8 && B == AdderTree.Pow2(levels)
      ensures Valid() && rx.out.B == B
    {
      hide AdderTree.Pow2, Tx.Transmit.Valid, Rx.Receive.Valid;
      EvenBus(levels);
      tx := new Tx.Transmit(UdpTxShape(B), levels, true);
      rx := new Rx.Receive(B, levels);
    }

    /** The transmit half of a clock edge, against the ready signals of the receive half. */
    method Send(hdrVal: bool, r: Request, dataVal: bool, beat: Beat,
                fifoRdy: bool, showData: bool, showEntry: bool, rxHdrRdy: bool, rxDataRdy: bool)
      returns (hdrFires: bool, h: seq<byte>, dataFires: bool, b: Beat)
      requires Valid()
      requires RequestOk(r) && OnBus(beat, rx.out.B)
      requires dataVal && tx.front.DataRdy(fifoRdy) ==>
        BodyFits(tx.front.ins.current.bytes, |Pending(tx.front.ins.t.dataIn)|, beat)
      modifies tx.front.ins, tx.front.eng, tx.front.eng.pipe, tx.front.eng.ins, tx.front.eng.skid, tx.out
      ensures tx.Valid() && rx.Valid() && Apart() && tx.front.s == UdpTxShape(rx.out.B) && AllGood(tx.front.ins.t.headers)
      ensures tx.front.ins.t.headers
           == old(tx.front.ins.t.headers) + Maybe(hdrVal && old(tx.front.HdrRdy()), AsHeader(TxBlock(r)))
      ensures tx.front.ins.t.dataIn
           == old(tx.front.ins.t.dataIn) + Maybe(dataVal && old(tx.front.DataRdy(fifoRdy)), beat)
      ensures |h| == 12 && OnBus(b, rx.out.B)
      ensures rx.front.ins.t.headers + Maybe(hdrFires && rxHdrRdy, AsHeader(Rebuilt(h))) == Wired(tx.out.log.hdrs)
      ensures rx.front.ins.t.dataIn + Maybe(dataFires && rxDataRdy, b) == tx.out.log.t.out
      // what the transmit path offers meets the receive path's demands
      ensures hdrFires && rxHdrRdy ==> HeaderOk(Rebuilt(h), rx.front.s)
      ensures dataFires && rxDataRdy && rx.front.ins.state.Input? ==>
        && BodyFits(rx.front.ins.current.bytes, |Pending(rx.front.ins.t.dataIn)|, b)
        && Rx.RepeatsLength(rx.front.ins.current.bytes, Pending(rx.front.ins.t.dataIn), b)
      ensures !(hdrVal && old(tx.front.HdrRdy())) && !old(tx.front.ins.state).Input? ==> !tx.front.ins.state.Input?
      ensures rx.Work() == old(rx.Work())
      ensures fifoRdy && showData && showEntry && !(hdrVal && old(tx.front.HdrRdy())) && !(dataVal && old(tx.front.DataRdy(fifoRdy))) ==>
        && tx.Work() <= old(tx.Work())
        && ((hdrFires && rxHdrRdy) || (dataFires && rxDataRdy) ==> tx.Work() < old(tx.Work()))
        && (tx.Work() < old(tx.Work()) || old(tx.Stalled(rxHdrRdy, rxDataRdy)))
    {
      hide Tx.Transmit.Valid, Rx.Receive.Valid, AllGood, Wired, Maybe, TxBlock, BodyFits, OnBus, Pending, Rebuilt, AsHeader, HeaderOk, RequestOk, Rx.RepeatsLength, Tx.Transmit.Work, Rx.Receive.Work, Tx.Transmit.Stalled;
      Shapes(tx, rx, r);
      GoodMore(tx.front.ins.t.headers, hdrVal && tx.front.HdrRdy(), r);
      hdrFires, h, dataFires, b := tx.Step(hdrVal, TxBlock(r), dataVal, beat, fifoRdy, showData, showEntry, rxHdrRdy, rxDataRdy);
      Across(tx, rx, old(tx.out.log.hdrs), hdrFires && rxHdrRdy, h, old(tx.out.log.t.out), dataFires && rxDataRdy, b);
      PushWired(old(tx.out.log.hdrs), hdrFires && rxHdrRdy, h);
    }

    /** The receive half, on what the transmit half offers. */
    method Take(hdrVal: bool, h: seq<byte>, dataVal: bool, b: Beat,
                fifoRdy: bool, showData: bool, showEntry: bool, dstHdrRdy: bool, dstDataRdy: bool)
      returns (outHdrVal: bool, outHdr: seq<byte>, outVal: bool, emitted: Beat)
      requires tx.Valid() && rx.Valid() && Apart() && |h| == 12 && OnBus(b, rx.out.B)
      requires hdrVal && rx.front.HdrRdy() ==> HeaderOk(Rebuilt(h), rx.front.s)
      requires dataVal && rx.front.DataRdy(fifoRdy) ==>
        && BodyFits(rx.front.ins.current.bytes, |Pending(rx.front.ins.t.dataIn)|, b)
        && Rx.RepeatsLength(rx.front.ins.current.bytes, Pending(rx.front.ins.t.dataIn), b)
      modifies rx.front.ins, rx.front.eng, rx.front.eng.pipe, rx.front.eng.ins, rx.front.eng.skid, rx.out
      ensures tx.Valid() && rx.Valid() && Apart()
      ensures rx.front.ins.t.headers == old(rx.front.ins.t.headers) + Maybe(hdrVal && old(rx.front.HdrRdy()), AsHeader(Rebuilt(h)))
      ensures rx.front.ins.t.dataIn == old(rx.front.ins.t.dataIn) + Maybe(dataVal && old(rx.front.DataRdy(fifoRdy)), b)
      ensures rx.out.log.hdrs == old(rx.out.log.hdrs) + Maybe(outHdrVal && dstHdrRdy, outHdr)
      ensures rx.out.log.t.out == old(rx.out.log.t.out) + Maybe(outVal && dstDataRdy, emitted)
      ensures outHdrVal == old(rx.out.hdrState).HdrOutput?
      ensures outVal == (old(rx.out.state).OutputLast? || (old(rx.out.state).Output? && old(rx.front.eng.skid.out).Holds?))
      ensures tx.Work() == old(tx.Work()) && tx.front.ins.state == old(tx.front.ins.state)
      ensures fifoRdy && showData && showEntry && dstHdrRdy && dstDataRdy ==>
        && rx.Work() <= old(rx.Work()) + CROSSING
        && (!(hdrVal && old(rx.front.HdrRdy())) && !(dataVal && old(rx.front.DataRdy(true))) ==>
            rx.Work() <= old(rx.Work()) && (rx.Work() < old(rx.Work()) || old(rx.Stalled(true, true))))
    {
      hide Tx.Transmit.Valid, Rx.Receive.Valid, Maybe, BodyFits, OnBus, Pending, Rebuilt, AsHeader, HeaderOk, Rx.RepeatsLength, Tx.Transmit.Work, Rx.Receive.Work, Rx.Receive.Stalled, Cost;
      CrossingCost(rx, hdrVal && rx.front.HdrRdy(), dataVal && rx.front.DataRdy(fifoRdy));
      RxWide(rx);
      outHdrVal, outHdr, outVal, emitted := rx.Step(hdrVal, Rebuilt(h), dataVal, b, fifoRdy, showData, showEntry, dstHdrRdy, dstDataRdy);
    }

    /** One clock edge of both paths, wired together, under any schedule. The payload
        beats must match the length of the datagram they belong to. */
    method Step(hdrVal: bool, r: Request, dataVal: bool, beat: Beat,
                txFifoRdy: bool, txShowData: bool, txShowEntry: bool,
                rxFifoRdy: bool, rxShowData: bool, rxShowEntry: bool, dstHdrRdy: bool, dstDataRdy: bool)
      returns (outHdrVal: bool, outHdr: seq<byte>, outVal: bool, emitted: Beat)
      requires Valid()
      requires RequestOk(r) && OnBus(beat, rx.out.B)
      requires dataVal && tx.front.DataRdy(txFifoRdy) ==>
        BodyFits(tx.front.ins.current.bytes, |Pending(tx.front.ins.t.dataIn)|, beat)
      modifies tx.front.ins, tx.front.eng, tx.front.eng.pipe, tx.front.eng.ins, tx.front.eng.skid, tx.out
      modifies rx.front.ins, rx.front.eng, rx.front.eng.pipe, rx.front.eng.ins, rx.front.eng.skid, rx.out
      ensures Valid()
      ensures tx.front.ins.t.headers
           == old(tx.front.ins.t.headers) + Maybe(hdrVal && old(tx.front.HdrRdy()), AsHeader(TxBlock(r)))
      ensures tx.front.ins.t.dataIn
           == old(tx.front.ins.t.dataIn) + Maybe(dataVal && old(tx.front.DataRdy(txFifoRdy)), beat)
      // what is delivered is what crosses the destination interfaces
      ensures rx.out.log.hdrs == old(rx.out.log.hdrs) + Maybe(outHdrVal && dstHdrRdy, outHdr)
      ensures rx.out.log.t.out == old(rx.out.log.t.out) + Maybe(outVal && dstDataRdy, emitted)
      ensures outHdrVal == old(rx.out.hdrState).HdrOutput?
      ensures outVal == (old(rx.out.state).OutputLast? || (old(rx.out.state).Output? && old(rx.front.eng.skid.out).Holds?))
      ensures !(hdrVal && old(tx.front.HdrRdy())) && !old(tx.front.ins.state).Input? ==> !tx.front.ins.state.Input?
      // a cycle that takes nothing in and is held up by nobody outside does some of the work left
      ensures
        && txFifoRdy && txShowData && txShowEntry && rxFifoRdy && rxShowData && rxShowEntry && dstHdrRdy && dstDataRdy
        && !(hdrVal && old(tx.front.HdrRdy())) && !(dataVal && old(tx.front.DataRdy(txFifoRdy)))
        ==> Rank() < old(Rank()) || old(Stuck())
    {
      hide Tx.Transmit.Valid, Rx.Receive.Valid, AllGood, Wired, Maybe, TxBlock, BodyFits, OnBus, Pending, Rebuilt, AsHeader, HeaderOk, RequestOk, Rx.RepeatsLength, Tx.Transmit.Work, Rx.Receive.Work, Tx.Transmit.Stalled, Rx.Receive.Stalled;
      RankIs();
      Shapes(tx, rx, r);
      var hv, h, dv, b := Send(hdrVal, r, dataVal, beat, txFifoRdy, txShowData, txShowEntry,
                               rx.front.HdrRdy(), rx.front.DataRdy(rxFifoRdy));
      outHdrVal, outHdr, outVal, emitted := Take(hv, h, dv, b, rxFifoRdy, rxShowData, rxShowEntry, dstHdrRdy, dstDataRdy);
      RankIs();
    }

    /** What is left to do in both paths. What crosses costs the receive path at most
        `CROSSING` and spares the transmit path at least one. */
    ghost function Rank(): nat
      reads this, tx, tx.front, tx.front.ins, tx.front.eng, tx.front.eng.pipe, tx.front.eng.ins, tx.front.eng.skid, tx.out
      reads rx, rx.front, rx.front.ins, rx.front.eng, rx.front.eng.pipe, rx.front.eng.ins, rx.front.eng.skid, rx.out
    {
      (CROSSING + 1) * tx.Work() + rx.Work()
    }

    lemma RankIs()
      ensures Rank() == (CROSSING + 1) * tx.Work() + rx.Work()
    {
    }

    /** Neither path can move, with a destination that takes everything. */
    ghost predicate Stuck()
      reads this, tx, tx.front, tx.front.ins, tx.front.eng, tx.front.eng.pipe, tx.front.eng.ins, tx.front.eng.skid, tx.out
      reads rx, rx.front, rx.front.ins, rx.front.eng, rx.front.eng.pipe, rx.front.eng.ins, rx.front.eng.skid, rx.out
    {
      tx.Stalled(rx.front.HdrRdy(), rx.front.DataRdy(true)) && rx.Stalled(true, true)
    }


    /** Conservation end to end: once nothing is inside, every datagram accepted has
        been delivered, header and payload. */
    lemma Complete()
      requires Valid() && AtRest(tx, rx)
      ensures rx.out.log.hdrs == BlocksOf(tx.front.ins.t.headers)
      ensures Frames(rx.out.log.t.out) == Frames(tx.front.ins.t.dataIn)
    {
      hide Tx.Transmit.Valid, Rx.Receive.Valid, Frames, Wired, BlocksOf, Judge, Closed, Blocks, Bodies, Engine.Quiet;
      hide Open, P.Images, P.Headers, P.Bodies, AllGood, UdpFrame, SealAll, Sealed, FieldClear;
      TxTaken(tx);
      tx.Complete();
      FramesGiven(tx, rx);
      Delivered(rx);
      CutBack(tx.front.ins.t.packets);
    }

    /** UDP end to end. In every reachable state, the headers delivered are the first
        headers accepted (with a clear checksum field) and the payloads delivered are
        the first payloads accepted: none lost, altered, duplicated or reordered, and
        no datagram rejected. */
    lemma Correct()
      requires Valid()
      ensures rx.out.log.hdrs <= BlocksOf(tx.front.ins.t.headers)
      ensures Frames(rx.out.log.t.out) <= Frames(tx.front.ins.t.dataIn)
    {
      hide Tx.Transmit.Valid, Rx.Receive.Valid, Frames, Wired, BlocksOf, Judge, Closed, Blocks, Bodies;
      hide Open, P.Images, P.Headers, P.Bodies, AllGood, UdpFrame, SealAll, Sealed, FieldClear;
      TxTaken(tx);
      var ps, fs := tx.front.ins.t.packets, P.Images(tx.front.ins.t.packets);
      var h := FramesBack(tx, rx);
      P.HeadersAt(ps);
      forall j | 0 <= j < |Frames(h)| ensures FieldClear(Frames(h)[j]) {
        assert Frames(h)[j] == fs[j];
      }
      RxWide(rx);
      AllAccepted(h, rx.out.B);
      Rx.CutsGrow(Frames(h), fs);
      CutBack(ps);
      BlocksOfPrefix(P.Headers(ps), tx.front.ins.t.headers);
    }
  }

  /** Nothing is inside either path. */
  predicate AtRest(tx: Tx.Transmit, rx: Rx.Receive)
    reads tx, tx.front, tx.front.ins, tx.front.eng, tx.front.eng.pipe, tx.front.eng.ins, tx.front.eng.skid, tx.out
    reads rx, rx.front, rx.front.ins, rx.front.eng, rx.front.eng.pipe, rx.front.eng.ins, rx.front.eng.skid, rx.out
  {
    && tx.front.ins.state.Ready? && tx.front.eng.Quiet() && tx.out.state.Ready?
    && rx.front.ins.state.Ready? && rx.front.eng.Quiet() && rx.out.state.Ready?
  }

  lemma Delivered(rx: Rx.Receive)
    requires rx.Valid() && rx.out.state.Ready?
    ensures rx.out.log.hdrs == Blocks(Judge(Udp, Closed(rx.front.eng.skid.sent)).good)
    ensures Frames(rx.out.log.t.out) == Bodies(Judge(Udp, Closed(rx.front.eng.skid.sent)).good)
  {
    hide Front.Valid, Receiver.Valid, Blocks, Bodies, Frames, Judge, Closed;
    Rx.ReceiverIdle(rx.out);
  }

  lemma RxWide(rx: Rx.Receive)
    requires rx.Valid()
    ensures BLOCK < rx.out.B == rx.front.s.B && rx.front.s == Rx.UdpRxShape(rx.out.B)
  {
  }

  lemma Shapes(tx: Tx.Transmit, rx: Rx.Receive, r: Request)
    requires tx.Valid() && rx.Valid() && tx.front.s == UdpTxShape(rx.out.B) && RequestOk(r)
    ensures BLOCK < rx.out.B == rx.front.s.B == tx.front.s.B == tx.out.B && rx.front.s.H == 12
    ensures |TxBlock(r)| == tx.front.s.H && HeaderOk(TxBlock(r), tx.front.s)
  {
    TxBlockGood(r);
  }

  /** What the transmit path offers meets the receive path's demands. */
  lemma Across(tx: Tx.Transmit, rx: Rx.Receive, hdrs: seq<seq<byte>>, hdrFires: bool, h: seq<byte>,
               out: seq<Beat>, dataFires: bool, b: Beat)
    requires tx.Valid() && rx.Valid() && tx.front.s == UdpTxShape(rx.out.B) && AllGood(tx.front.ins.t.headers)
    requires rx.front.ins.t.headers == Wired(hdrs) && rx.front.ins.t.dataIn == out
    requires tx.out.log.hdrs == hdrs + Maybe(hdrFires, h) && |h| == 12
    requires tx.out.log.t.out == out + Maybe(dataFires, b) && OnBus(b, rx.out.B)
    ensures hdrFires ==> HeaderOk(Rebuilt(h), rx.front.s)
    ensures dataFires && rx.front.ins.state.Input? ==>
      && BodyFits(rx.front.ins.current.bytes, |Pending(out)|, b)
      && Rx.RepeatsLength(rx.front.ins.current.bytes, Pending(out), b)
  {
    hide Tx.Transmit.Valid, AllGood, Wired, Frames, Strip.Tails, Strip.Heads, Open, Payload, Pending, UdpFrame;
    RxWide(rx);
    var gs := Owed(tx);
    assert hdrs <= tx.out.log.hdrs;
    CurrentHeader(rx.front.ins, hdrs, gs);
    if hdrFires {
      HeaderAcross(hdrs, h, gs, rx.front.s);
    }
    if dataFires && rx.front.ins.state.Input? {
      BeatAcross(out, b, gs, rx.front.ins.current.bytes, rx.out.B);
    }
  }

  lemma HeaderAcross(hdrs: seq<seq<byte>>, h: seq<byte>, gs: seq<seq<byte>>, s: Shape)
    requires AllUdp(gs) && hdrs + [h] <= Strip.Heads(gs) && |h| == 12 && s.H == 12 && s.M == BLOCK
    ensures HeaderOk(Rebuilt(h), s)
  {
    hide Strip.Heads;
    Tx.CutsGrow(gs, gs);
    var n := |hdrs|;
    Tx.TailAt(gs, n);
    assert (hdrs + [h])[n] == h;
    RebuiltSame(gs[n]);
  }

  /** The receive path's frames, sealed a second time, are the frames first taken. */
  lemma FramesBack(tx: Tx.Transmit, rx: Rx.Receive) returns (h: seq<Beat>)
    requires tx.Valid() && rx.Valid() && tx.front.s == UdpTxShape(rx.out.B) && AllGood(tx.front.ins.t.headers)
    requires rx.front.ins.t.headers == Wired(tx.out.log.hdrs) && rx.front.ins.t.dataIn == tx.out.log.t.out
    ensures Reliable(h, rx.front.s) && Frames(h) <= P.Images(tx.front.ins.t.packets)
    ensures rx.out.log.hdrs <= Blocks(Judge(Udp, Closed(h)).good)
    ensures Frames(rx.out.log.t.out) <= Bodies(Judge(Udp, Closed(h)).good)
  {
    hide Tx.Transmit.Valid, Wired, Frames, Strip.Tails, Strip.Heads, Open, Closed, Judge, Blocks, Bodies;
    hide P.Images, P.Headers, P.Bodies, AllGood, UdpFrame, SealAll, Sealed, FieldClear;
    RxWide(rx);
    h := rx.CorrectBeats();
    var gs := Owed(tx);
    CurrentHeader(rx.front.ins, tx.out.log.hdrs, gs);
    RxImages(rx.front.ins.t.packets, gs, Frames(tx.out.log.t.out));
    TxTaken(tx);
    P.HeadersAt(tx.front.ins.t.packets);
    Unseal(P.Images(rx.front.ins.t.packets), P.Images(tx.front.ins.t.packets));
  }

  /** With nothing left in the transmit path and in front of the receiver, it has been given
      every frame first taken. */
  lemma FramesGiven(tx: Tx.Transmit, rx: Rx.Receive)
    requires tx.Valid() && rx.Valid() && tx.front.s == UdpTxShape(rx.out.B) && AllGood(tx.front.ins.t.headers)
    requires rx.front.ins.t.headers == Wired(tx.out.log.hdrs) && rx.front.ins.t.dataIn == tx.out.log.t.out
    requires tx.front.ins.state.Ready? && tx.front.eng.Quiet() && tx.out.state.Ready?
    requires rx.front.ins.state.Ready? && rx.front.eng.Quiet()
    ensures Reliable(rx.front.eng.skid.sent, rx.front.s)
    ensures Frames(rx.front.eng.skid.sent) == P.Images(tx.front.ins.t.packets)
    ensures Judge(Udp, Closed(rx.front.eng.skid.sent)) == Verdict(P.Images(tx.front.ins.t.packets), false)
  {
    hide Tx.Transmit.Valid, Wired, Frames, Strip.Tails, Strip.Heads, Open, Closed, Judge, Engine.Quiet;
    hide P.Images, P.Headers, P.Bodies, AllGood, UdpFrame, SealAll, Sealed, FieldClear;
    RxWide(rx);
    rx.front.Complete();
    var gs := Owed(tx);
    tx.Complete();
    CurrentHeader(rx.front.ins, tx.out.log.hdrs, gs);
    RxImages(rx.front.ins.t.packets, gs, Frames(tx.out.log.t.out));
    Tx.CutsGrow(gs, gs);
    P.HeadersAt(rx.front.ins.t.packets);
    assert P.Images(rx.front.ins.t.packets) == gs;
    TxTaken(tx);
    P.HeadersAt(tx.front.ins.t.packets);
    UnsealAll(P.Images(tx.front.ins.t.packets));
    AllAccepted(rx.front.eng.skid.sent, rx.out.B);
  }

  lemma UnsealAll(fs: seq<seq<byte>>)
    requires AllUdp(fs) && forall j :: 0 <= j < |fs| ==> FieldClear(fs[j])
    ensures SealAll(SealAll(fs, 18), 18) == fs
  {
    hide SealAll, Sealed, UdpFrame, FieldClear;
    SealAllAt(fs, 18);
    SealAllAt(SealAll(fs, 18), 18);
    Unseal(SealAll(fs, 18), fs);
  }

  lemma Unseal(gs: seq<seq<byte>>, fs: seq<seq<byte>>)
    requires AllUdp(fs) && gs <= SealAll(fs, 18)
    requires forall j :: 0 <= j < |fs| ==> FieldClear(fs[j])
    ensures SealAll(gs, 18) <= fs
  {
    hide SealAll, Sealed, UdpFrame, FieldClear;
    SealAllAt(fs, 18);
    SealAllAt(gs, 18);
    forall j | 0 <= j < |gs| ensures SealAll(gs, 18)[j] == fs[j] {
      SealedBack(fs[j]);
    }
  }
}
