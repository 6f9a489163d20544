/** TCP transmit: the transmit path with a 20-byte TCP header behind the
    pseudo-header and the checksum at bytes 16 and 17 of the TCP header. */
module TcpTx {
  import opened Streams
  import opened OnesComplement
  import opened ChksumFront
  import opened Sealing
  import opened UdpLoop
  import Strip = PseudoStripper
  import Tx = TxPath
  import P = PrefixInserter
  import ChksumEngine

  datatype Segment = Segment(src: seq<byte>, dst: seq<byte>, header: seq<byte>, payloadLen: nat)

  predicate SegmentOk(g: Segment) {
    |g.src| == |g.dst| == 4 && |g.header| == 20 && g.payloadLen + 20 < 0x10000
  }

  function TcpTxShape(B: nat): Shape {
    Shape(B, 32, 28, 32)
  }

  /** The pseudo-header of section 3.1 of RFC 9293: addresses, zero, protocol 6 and the TCP
      length. */
  function RfcPseudo(src: seq<byte>, dst: seq<byte>, len: nat): seq<byte> {
    src + dst + [0, 6] + Word(len)
  }

  /** The same fields in the order this stack stores them. */
  function TcpPseudo(g: Segment): seq<byte> {
    g.src + g.dst + Word(g.payloadLen + 20) + [0, 6]
  }

  /** The header with its checksum field cleared. */
  function Cleared(header: seq<byte>): seq<byte>
    requires |header| == 20
  {
    header[16 := 0][17 := 0]
  }

  /** The block the transmit controller starts from. */
  function TcpBlock(g: Segment): seq<byte>
    requires |g.header| == 20
  {
    TcpPseudo(g) + Cleared(g.header)
  }

  /** What must appear on the wire: the header with the RFC 1071 checksum over
      pseudo-header, cleared header and payload, then the payload. */
  function OnWire(g: Segment, payload: seq<byte>): seq<byte>
    requires |g.header| == 20
  {
    var c := RfcChecksum(RfcPseudo(g.src, g.dst, g.payloadLen + 20) + (Cleared(g.header) + payload));
    var hi, lo := (c / 256) % 256, c % 256;
    g.header[16 := hi][17 := lo] + payload
  }

  /** The order of the fields does not matter to the sum. */
  lemma PseudoSum(src: seq<byte>, dst: seq<byte>, len: nat, rest: seq<byte>)
    requires |src| == |dst| == 4
    ensures LittleSum(RfcPseudo(src, dst, len) + rest) == LittleSum((src + dst + Word(len) + [0, 6]) + rest)
  {
    var a, w, z := src + dst, Word(len), [0 as byte, 6];
    hide Word;
    assert |w| == 2 by {
      WordLen(len);
    }
    LittleSumConcat(RfcPseudo(src, dst, len), rest);
    LittleSumConcat(a + w + z, rest);
    LittleSumConcat(a + z, w);
    LittleSumConcat(a, z);
    LittleSumConcat(a + w, z);
    LittleSumConcat(a, w);
    hide LittleSum;
  }

  lemma WordLen(n: nat)
    ensures |Word(n)| == 2
  {
  }

  /** Nor to the checksum. */
  lemma PseudoOrder(g: Segment, rest: seq<byte>)
    requires SegmentOk(g)
    ensures RfcChecksum(RfcPseudo(g.src, g.dst, g.payloadLen + 20) + rest) == RfcChecksum(TcpPseudo(g) + rest)
  {
    hide LittleSum, RfcSum, Word;
    PseudoSum(g.src, g.dst, g.payloadLen + 20, rest);
    StoredChecksum(RfcPseudo(g.src, g.dst, g.payloadLen + 20) + rest);
    StoredChecksum(TcpPseudo(g) + rest);
  }

  lemma BlockLen(g: Segment)
    requires SegmentOk(g)
    ensures |TcpPseudo(g)| == 12 && |TcpBlock(g)| == 32 && Strip.Len(TcpBlock(g)) == g.payloadLen + 20
    ensures TcpBlock(g)[28] == 0 && TcpBlock(g)[29] == 0
    ensures Addressed(TcpPseudo(g), g)
    ensures forall B :: HeaderOk(TcpBlock(g), TcpTxShape(B)) // every segment may be handed over
  {
    var b, n := TcpBlock(g), g.payloadLen + 20;
    assert b[8] == (n / 256) % 256 && b[9] == n % 256;
  }

  /** A sealed frame without its pseudo-header is the segment on the wire. */
  lemma SealedSegment(g: Segment, payload: seq<byte>)
    requires SegmentOk(g)
    ensures
      var f := Sealed(TcpBlock(g) + payload, 28);
      |f| >= 32 && f[..12] == TcpPseudo(g) && f[12..] == OnWire(g, payload) && |OnWire(g, payload)| == 20 + |payload|
  {
    BlockLen(g);
    var p := TcpBlock(g) + payload;
    Assoc(TcpPseudo(g), Cleared(g.header), payload);
    SealIsRfc(p, 28);
    PseudoOrder(g, Cleared(g.header) + payload);
    var f, c, w := Sealed(p, 28), RfcChecksum(p), OnWire(g, payload);
    hide Sealed, RfcSum, TcpPseudo, RfcPseudo;
    assert 256 * (f[28] as int) + f[29] as int == c;
    assert f[28] == c / 256 && f[29] == c % 256;
    assert |f[12..]| == |w|;
    forall i | 0 <= i < |w| ensures f[12..][i] == w[i] {
      assert i != 16 && i != 17 ==> f[12 + i] == p[12 + i];
    }
    forall i | 0 <= i < 12 ensures f[i] == TcpPseudo(g)[i] { assert f[i] == p[i]; }
  }

  /** A header as the IP layer gets it: who sends how many bytes of which protocol to whom. */
  predicate Addressed(h: seq<byte>, g: Segment) {
    |h| == 12 && h[..4] == g.src && h[4..8] == g.dst && Field16(h, 8) == 20 + g.payloadLen && h[10] == 0 && h[11] == 6
  }

  ghost predicate Wired(hs: seq<P.Header>, gs: seq<Segment>) {
    && |hs| == |gs|
    && forall i :: 0 <= i < |gs| ==> SegmentOk(gs[i]) && hs[i] == AsHeader(TcpBlock(gs[i]))
  }

  /** TCP transmit. In every reachable state of a transmit path of this shape that was
      handed the segments `gs`, every header handed over is a pseudo-header of the list
      and every frame handed over is the segment on the wire, in order. */
  lemma Correct(tx: Tx.Transmit, gs: seq<Segment>)
    requires tx.Valid() && tx.front.s == TcpTxShape(tx.front.s.B) && Wired(tx.front.ins.t.headers, gs)
    ensures
      var ps := tx.front.ins.t.packets;
      && |tx.out.log.hdrs| <= |ps| <= |gs| && |Frames(tx.out.log.t.out)| <= |ps|
      && (forall j :: 0 <= j < |tx.out.log.hdrs| ==> Addressed(tx.out.log.hdrs[j], gs[j]))
      && (forall j :: 0 <= j < |Frames(tx.out.log.t.out)| ==>
            && Frames(tx.out.log.t.out)[j] == OnWire(gs[j], if ps[j].hdr.bare then [] else ps[j].body)
            && |Frames(tx.out.log.t.out)[j]| == 20 + gs[j].payloadLen)
      && Frames(tx.front.ins.t.dataIn) == P.Bodies(ps)
  {
    hide Tx.Transmit.Valid, Frames, Strip.Heads, Strip.Tails, P.Images, P.Bodies, P.Headers, OnWire, TcpPseudo, TcpBlock, Sealed, SealAll;
    var ps, s := tx.front.ins.t.packets, tx.front.s;
    var fs, ss := P.Images(ps), SealedImages(ps, s);
    tx.Correct();
    Taken(tx);
    P.HeadersAt(ps);
    SealAllAt(fs, 28);
    Tx.CutsGrow(ss, ss);
    forall j | 0 <= j < |ps|
      ensures Addressed(Strip.Heads(ss)[j], gs[j])
      ensures Strip.Tails(ss)[j] == OnWire(gs[j], if ps[j].hdr.bare then [] else ps[j].body)
      ensures |Strip.Tails(ss)[j]| == 20 + gs[j].payloadLen
    {
      BlockLen(gs[j]);
      Announced(tx, j);
      assert ps[j].hdr == tx.front.ins.t.headers[j] == AsHeader(TcpBlock(gs[j]));
      var body := if ps[j].hdr.bare then [] else ps[j].body;
      ImageIs(ps[j], TcpBlock(gs[j]), body);
      SealedSegment(gs[j], body);
      SameLen(TcpBlock(gs[j]), body);
      assert 32 + |body| == |P.Image(ps[j])|;
      Tx.TailAt(ss, j);
    }
  }

  /** At rest every segment handed over is on the wire. */
  lemma Complete(tx: Tx.Transmit, gs: seq<Segment>)
    requires tx.Valid() && tx.front.s == TcpTxShape(tx.front.s.B) && Wired(tx.front.ins.t.headers, gs)
    requires Tx.AtRest(tx)
    ensures
      var ps := tx.front.ins.t.packets;
      && |ps| == |tx.out.log.hdrs| == |Frames(tx.out.log.t.out)| == |gs|
      && (forall j :: 0 <= j < |gs| ==> Addressed(tx.out.log.hdrs[j], gs[j]))
      && (forall j :: 0 <= j < |gs| ==>
            && Frames(tx.out.log.t.out)[j] == OnWire(gs[j], if ps[j].hdr.bare then [] else ps[j].body)
            && |Frames(tx.out.log.t.out)[j]| == 20 + gs[j].payloadLen)
      && Frames(tx.front.ins.t.dataIn) == P.Bodies(ps)
  {
    hide Tx.Transmit.Valid, Frames, Strip.Heads, Strip.Tails, P.Images, P.Bodies, P.Headers, OnWire, TcpPseudo, TcpBlock, Sealed, SealAll, ChksumEngine.Engine.Quiet;
    var ps, s := tx.front.ins.t.packets, tx.front.s;
    tx.Complete();
    Correct(tx, gs);
    P.HeadersAt(ps);
    SealAllAt(P.Images(ps), 28);
    Tx.CutsGrow(SealedImages(ps, s), SealedImages(ps, s));
  }

  /** Left alone, by a client with no segment half handed over and a destination that takes
      everything, the path runs until every segment handed over is on the wire. */
  method Drain(tx: Tx.Transmit, ghost gs: seq<Segment>)
    requires tx.Valid() && tx.front.s == TcpTxShape(tx.front.s.B) && Wired(tx.front.ins.t.headers, gs)
    requires !tx.front.ins.state.Input?
    modifies tx.front.ins, tx.front.eng, tx.front.eng.pipe, tx.front.eng.ins, tx.front.eng.skid, tx.out
    ensures tx.Valid() && Tx.AtRest(tx) && tx.front.ins.t.dataIn == old(tx.front.ins.t.dataIn)
    ensures
      var ps := tx.front.ins.t.packets;
      && |ps| == |tx.out.log.hdrs| == |Frames(tx.out.log.t.out)| == |gs|
      && (forall j :: 0 <= j < |gs| ==> Addressed(tx.out.log.hdrs[j], gs[j]))
      && (forall j :: 0 <= j < |gs| ==>
            && Frames(tx.out.log.t.out)[j] == OnWire(gs[j], if ps[j].hdr.bare then [] else ps[j].body)
            && |Frames(tx.out.log.t.out)[j]| == 20 + gs[j].payloadLen)
      && Frames(tx.front.ins.t.dataIn) == P.Bodies(ps)
  {
    hide Tx.Transmit.Valid, Tx.AtRest, Frames, P.Bodies, OnWire, TcpPseudo, TcpBlock;
    Tx.Drain(tx);
    Complete(tx, gs);
  }

  /** Every packet taken is as long as its length field says. */
  lemma Announced(tx: Tx.Transmit, j: nat)
    requires tx.Valid() && tx.front.s == TcpTxShape(tx.front.s.B) && j < |tx.front.ins.t.packets|
    ensures var f := P.Image(tx.front.ins.t.packets[j]);
      32 <= |f| == 12 + Strip.Len(f)
  {
    hide P.Inserter.Valid, ChksumEngine.Engine.Valid, P.Images, P.Image;
    P.HeadersAt(tx.front.ins.t.packets);
    assert Consistent(P.Images(tx.front.ins.t.packets)[j], tx.front.s);
  }

  lemma SameLen(block: seq<byte>, body: seq<byte>)
    requires |block| == 32
    ensures Strip.Len(block + body) == Strip.Len(block)
  {
  }

  lemma ImageIs(p: P.Packet, block: seq<byte>, body: seq<byte>)
    requires p.hdr.bytes == block && body == if p.hdr.bare then [] else p.body
    ensures P.Image(p) == block + body
  {
  }

  lemma Taken(tx: Tx.Transmit)
    requires tx.Valid()
    ensures P.Headers(tx.front.ins.t.packets) <= tx.front.ins.t.headers
    ensures Frames(tx.front.ins.t.dataIn) == P.Bodies(tx.front.ins.t.packets)
  {
    HeadersTaken(tx.front.ins);
  }
}
