/** The data machine shared by the IP-to-Ethernet and the TCP stream formatters: a
    20-byte header goes out in front of a payload stream, and the machine then waits for
    its twin, the header machine, before it takes the next packet. */
module TwinInserter {
  import opened Streams
  import P = PrefixInserter

  const HDR: nat := 20

  datatype State = Ready | Output | OutputLast | WaitFin

  /** The data machine's registers: `save` holds the bytes not sent yet. */
  datatype Regs = Regs(state: State, save: seq<byte>, pad: nat)

  /** The cycles that the data machine still needs. */
  function DataWeight(s: State): nat {
    match s case Ready => 0 case Output => 3 case OutputLast => 2 case WaitFin => 1
  }

  /** What has crossed the interfaces, in each state. */
  ghost predicate DataOk(r: Regs, t: P.Trace, current: P.Header, B: nat) {
    && HDR < B && |r.save| == HDR
    && match r.state
       case Ready | WaitFin => P.Idle(t, B)
       case Output => P.Streaming(t, B, current, r.save)
       case OutputLast => r.pad < HDR && P.Draining(t, B, r.save[..HDR - r.pad])
  }

  /** A header is taken; with no payload to come, it is all there is to send. */
  function Began(r: Regs, h: P.Header): Regs {
    Regs(if h.bare then OutputLast else Output, h.bytes, if h.bare then 0 else r.pad)
  }

  function TraceBegan(t: P.Trace, h: P.Header): P.Trace {
    t.(headers := t.headers + [h], packets := t.packets + Maybe(h.bare, P.Packet(h, [])))
  }

  lemma Begin(r: Regs, t: P.Trace, current: P.Header, B: nat, h: P.Header)
    requires DataOk(r, t, current, B) && r.state == Ready && |h.bytes| == HDR
    ensures DataOk(Began(r, h), TraceBegan(t, h), h, B)
  {
    hide P.Idle, P.Streaming, P.Draining;
    if h.bare {
      P.TakeBare(t, B, h);
      assert h.bytes[..HDR] == h.bytes;
    } else {
      P.TakePayload(t, B, h);
      assert t.packets + [] == t.packets;
    }
  }

  /** The output while `data` is on the input bus. */
  function Joined(r: Regs, data: seq<byte>, last: bool, pad: nat, B: nat): Beat
    requires HDR < B == |data| && pad < B
  {
    var word := r.save + data[..B - HDR];
    if last && pad >= HDR then Beat(word, true, Truncated(pad + (B - HDR), B)) else Beat(word, false, 0)
  }

  function Kept(r: Regs, data: seq<byte>, last: bool, pad: nat, B: nat): Regs
    requires HDR < B == |data|
  {
    Regs(if !last then Output else if pad >= HDR then WaitFin else OutputLast,
         data[B - HDR..], if last && pad < HDR then pad else r.pad)
  }

  function TraceKept(t: P.Trace, current: P.Header, b: Beat, out: Beat): P.Trace {
    t.(dataIn := t.dataIn + [b], out := t.out + [out],
       packets := t.packets + Maybe(b.last, P.Packet(current, Pending(t.dataIn) + Bytes(b))))
  }

  lemma Pass(r: Regs, t: P.Trace, current: P.Header, B: nat, b: Beat)
    requires DataOk(r, t, current, B) && r.state == Output && OnBus(b, B)
    ensures DataOk(Kept(r, b.data, b.last, b.pad, B), TraceKept(t, current, b, Joined(r, b.data, b.last, b.pad, B)), current, B)
  {
    hide P.Idle, P.Streaming, P.Draining, Pending, Bytes;
    if b.last && b.pad < HDR {
      P.PassSpill(t, B, current, r.save, b, B - HDR);
    } else if b.last {
      P.PassFit(t, B, current, r.save, b, B - HDR);
    } else {
      P.PassMiddle(t, B, current, r.save, b, B - HDR);
      assert t.packets + [] == t.packets;
    }
  }

  /** The last output, when the header or the end of the payload is still saved. */
  function Flushed(r: Regs, B: nat): Beat
    requires HDR < B && r.pad < HDR
  {
    Beat(r.save + seq(B - HDR, _ => 0), true, Truncated(r.pad + (B - HDR), B))
  }

  lemma Flush(r: Regs, t: P.Trace, current: P.Header, B: nat)
    requires DataOk(r, t, current, B) && r.state == OutputLast
    ensures HDR < B && r.pad < HDR && Clean(Flushed(r, B), B) && Flushed(r, B).last
    ensures DataOk(r.(state := WaitFin), t.(out := t.out + [Flushed(r, B)]), current, B)
  {
    hide P.Idle, P.Streaming, P.Draining;
    P.Drain(t, B, r.save, seq(B - HDR, _ => 0), r.pad);
  }

  /** The data machine joins its twin in READY. */
  lemma Rest(r: Regs, t: P.Trace, current: P.Header, B: nat)
    requires DataOk(r, t, current, B) && r.state == WaitFin
    ensures DataOk(r.(state := Ready), t, current, B)
  {
  }

  lemma Sizes(r: Regs, t: P.Trace, current: P.Header, B: nat)
    requires DataOk(r, t, current, B)
    ensures HDR < B && |r.save| == HDR && (r.state == OutputLast ==> r.pad < HDR)
  {
    hide P.Idle, P.Streaming, P.Draining;
  }

  /** Two beats that mean the same. */
  predicate Same(x: Beat, y: Beat) {
    Bytes(x) == Bytes(y) && x.last == y.last
  }

  lemma SamePush(h: seq<Beat>, x: Beat, y: Beat)
    requires Same(x, y)
    ensures Frames(h + [x]) == Frames(h + [y]) && Pending(h + [x]) == Pending(h + [y])
    ensures x.last ==> Open(h + [x]) == [] == Open(h + [y])
  {
    Push(h, x);
    Push(h, y);
  }

  /** Bytes beyond the padding are free: masking the last beat, on either side, changes
      nothing that matters. */
  lemma Masking(r: Regs, t: P.Trace, current: P.Header, B: nat, h: seq<Beat>, b: Beat, b1: Beat, g: seq<Beat>, x: Beat, x1: Beat)
    requires DataOk(r, t.(dataIn := h + [b], out := g + [x]), current, B)
    requires Same(b, b1) && Same(x, x1) && Clean(x1, B)
    requires b.last || r.state == Output
    requires r.state == Output || r.state == OutputLast ==> !x.last
    requires r.state == Ready || r.state == WaitFin ==> x.last
    ensures DataOk(r, t.(dataIn := h + [b1], out := g + [x1]), current, B)
  {
    SamePush(h, b, b1);
    SamePush(g, x, x1);
    assert AllClean(g + [x1], B) by {
      var all := g + [x];
      assert AllClean(all, B);
      forall i | 0 <= i < |g + [x1]|
        ensures Clean((g + [x1])[i], B)
      {
        assert i < |g| ==> (g + [x1])[i] == all[i];
      }
    }
    hide Frames, Open, Pending, AllClean, P.Headers, P.Bodies, P.Images;
  }

  /** A beat passes as `seen` after masking, and what goes out may be masked too. */
  lemma PassMasked(r: Regs, t: P.Trace, current: P.Header, B: nat, b: Beat, seen: Beat, out: Beat)
    requires DataOk(r, t, current, B) && r.state == Output && OnBus(b, B) && OnBus(seen, B) && Same(seen, b) && seen.pad == b.pad
    requires Clean(out, B) && Same(Joined(r, seen.data, b.last, b.pad, B), out)
    ensures DataOk(Kept(r, seen.data, b.last, b.pad, B), TraceKept(t, current, b, out), current, B)
  {
    Pass(r, t, current, B, seen);
    var x := Joined(r, seen.data, b.last, b.pad, B);
    var t1 := TraceKept(t, current, seen, x);
    hide DataOk, Same;
    assert b.last == seen.last && Bytes(b) == Bytes(seen) by {
      assert Same(seen, b);
      SameMeans(seen, b);
    }
    Masking(Kept(r, seen.data, b.last, b.pad, B), t1, current, B, t.dataIn, seen, b, t.out, x, out);
  }

  /** The same with the output as it is. */
  lemma PassSeen(r: Regs, t: P.Trace, current: P.Header, B: nat, b: Beat, seen: Beat)
    requires DataOk(r, t, current, B) && r.state == Output && OnBus(b, B) && OnBus(seen, B) && Same(seen, b) && seen.pad == b.pad
    ensures var out := Joined(r, seen.data, b.last, b.pad, B);
      Clean(out, B) && DataOk(Kept(r, seen.data, b.last, b.pad, B), TraceKept(t, current, b, out), current, B)
  {
    var out := Joined(r, seen.data, b.last, b.pad, B);
    assert Same(out, out) by {
      SameItself(out);
    }
    Sizes(r, t, current, B);
    hide DataOk, Same;
    PassMasked(r, t, current, B, b, seen, out);
  }

  lemma SameItself(b: Beat)
    ensures Same(b, b)
  {
  }

  lemma SameMeans(x: Beat, y: Beat)
    requires Same(x, y)
    ensures Bytes(x) == Bytes(y) && x.last == y.last
  {
  }

  /** The packets taken are those whose headers and data frames came in, and the frames
      sent are their images, in order; at most the packet under way is missing, and when
      the machine is idle nothing is. */
  lemma DataInserts(r: Regs, t: P.Trace, current: P.Header, B: nat)
    requires DataOk(r, t, current, B)
    ensures P.Headers(t.packets) <= t.headers && |t.headers| <= |t.packets| + 1
    ensures Frames(t.dataIn) == P.Bodies(t.packets)
    ensures Frames(t.out) <= P.Images(t.packets) && |t.packets| <= |Frames(t.out)| + 1
    ensures AllClean(t.out, B)
    ensures r.state == Ready ==> |t.headers| == |t.packets| == |Frames(t.out)|
  {
    hide Frames, P.Bodies, P.Headers, P.Images, AllClean, Open, Pending;
    P.HeadersAt(t.packets);
    if r.state == OutputLast {
      var n := |t.packets| - 1;
      P.HeadersAt(t.packets[..n]);
      assert t.packets == t.packets[..n] + [t.packets[n]];
      P.PushPacket(t.packets[..n], t.packets[n]);
    }
  }
}
