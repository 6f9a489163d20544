/** The three controllers that put a header block in front of a payload stream
    on the way into the checksum engine: UDP transmit, UDP receive and TCP
    transmit. They are the same machine with a different header size `H`. */
module PrefixInserter {
  import opened Streams

  datatype State = Ready | Input | Last

  /** The header block offered on the header interface. `bare` says that the
      length field announces no payload, so no data beat belongs to it. */
  datatype Header = Header(bytes: seq<byte>, bare: bool)

  datatype Packet = Packet(hdr: Header, body: seq<byte>)

  function Headers(ps: seq<Packet>): seq<Header> {
    if ps == [] then [] else Headers(ps[..|ps| - 1]) + [ps[|ps| - 1].hdr]
  }

  /** The data frames that belong to a list of packets. */
  function Bodies(ps: seq<Packet>): seq<seq<byte>> {
    if ps == [] then []
    else
      var p := ps[|ps| - 1];
      Bodies(ps[..|ps| - 1]) + if p.hdr.bare then [] else [p.body]
  }

  /** The frame a packet must become. */
  function Image(p: Packet): seq<byte> {
    if p.hdr.bare then p.hdr.bytes else p.hdr.bytes + p.body
  }

  function Images(ps: seq<Packet>): seq<seq<byte>> {
    if ps == [] then [] else Images(ps[..|ps| - 1]) + [Image(ps[|ps| - 1])]
  }

  lemma PushPacket(ps: seq<Packet>, p: Packet)
    ensures Headers(ps + [p]) == Headers(ps) + [p.hdr]
    ensures Bodies(ps + [p]) == Bodies(ps) + if p.hdr.bare then [] else [p.body]
    ensures Images(ps + [p]) == Images(ps) + [Image(p)]
    ensures (ps + [p])[..|ps|] == ps
  {
    assert (ps + [p])[..|ps|] == ps;
  }

  lemma {:induction false} HeadersAt(ps: seq<Packet>)
    ensures |Headers(ps)| == |Images(ps)| == |ps|
    ensures forall j :: 0 <= j < |ps| ==> Headers(ps)[j] == ps[j].hdr && Images(ps)[j] == Image(ps[j])
  {
    if ps != [] {
      var init, p := ps[..|ps| - 1], ps[|ps| - 1];
      assert ps == init + [p];
      HeadersAt(init);
      hide Headers, Images, Image, Bodies;
      PushPacket(init, p);
    }
  }

  /** Everything that has crossed the interfaces, and what it amounts to:
      `packets` are the packets whose input is complete. */
  datatype Trace = Trace(headers: seq<Header>, dataIn: seq<Beat>, out: seq<Beat>, packets: seq<Packet>)

  /** Idle: the headers and data frames taken are exactly those of `packets`,
      and the frames emitted are exactly their images. */
  ghost predicate Idle(t: Trace, B: nat) {
    && AllClean(t.out, B)
    && t.headers == Headers(t.packets)
    && Frames(t.dataIn) == Bodies(t.packets) && Open(t.dataIn) == []
    && Frames(t.out) == Images(t.packets) && Open(t.out) == []
  }

  /** Inside a packet: bytes sent and held are the header and the bytes taken. */
  ghost predicate Streaming(t: Trace, B: nat, hdr: Header, hold: seq<byte>) {
    && AllClean(t.out, B)
    && t.headers == Headers(t.packets) + [hdr] && !hdr.bare
    && Frames(t.dataIn) == Bodies(t.packets)
    && Frames(t.out) == Images(t.packets)
    && Pending(t.out) + hold == hdr.bytes + Pending(t.dataIn)
  }

  /** All input of the last packet is in; `rest` is what is still to be sent. */
  ghost predicate Draining(t: Trace, B: nat, rest: seq<byte>) {
    && AllClean(t.out, B)
    && t.headers == Headers(t.packets) && t.packets != []
    && Frames(t.dataIn) == Bodies(t.packets) && Open(t.dataIn) == []
    && Frames(t.out) == Images(t.packets[..|t.packets| - 1])
    && Pending(t.out) + rest == Image(t.packets[|t.packets| - 1])
  }

  lemma TakeBare(t: Trace, B: nat, hdr: Header)
    requires Idle(t, B) && hdr.bare
    ensures Draining(t.(headers := t.headers + [hdr], packets := t.packets + [Packet(hdr, [])]), B, hdr.bytes)
  {
    hide Frames, Closed, Headers, Bodies, Images;
    PushPacket(t.packets, Packet(hdr, []));
  }

  lemma TakePayload(t: Trace, B: nat, hdr: Header)
    requires Idle(t, B) && !hdr.bare
    ensures Streaming(t.(headers := t.headers + [hdr]), B, hdr, hdr.bytes)
  {
    hide Frames, Closed, Headers, Bodies, Images;
  }

  lemma MiddleBytes(sent: seq<byte>, hold: seq<byte>, head: seq<byte>, got: seq<byte>, data: seq<byte>, k: nat)
    requires k <= |data| && sent + hold == head + got
    ensures (sent + (hold + data[..k])) + data[k..] == head + (got + data)
  {
    Realign(sent, hold, head + got, data, k);
    Assoc(head, got, data);
  }

  lemma PassMiddle(t: Trace, B: nat, hdr: Header, hold: seq<byte>, beat: Beat, k: nat)
    requires Streaming(t, B, hdr, hold)
    requires 0 < |beat.data| == B == |hold| + k && !beat.last
    ensures
      var emitted := Beat(hold + beat.data[..k], false, 0);
      Streaming(t.(dataIn := t.dataIn + [beat], out := t.out + [emitted]), B, hdr, beat.data[k..])
  {
    hide Frames, Closed, Open, Payload, Pending, Headers, Bodies, Images;
    var got, sent := Pending(t.dataIn), Pending(t.out);
    Push(t.dataIn, beat);
    Push(t.out, Beat(hold + beat.data[..k], false, 0));
    MiddleBytes(sent, hold, hdr.bytes, got, beat.data, k);
  }

  /** The bytes of a packet whose last beat does not fit, and of one whose last beat does. */
  lemma SpillImage(sent: seq<byte>, hold: seq<byte>, hdr: Header, got: seq<byte>, beat: Beat, k: nat)
    requires |beat.data| == |hold| + k && beat.last && beat.pad < |hold| && sent + hold == hdr.bytes + got && !hdr.bare
    ensures (sent + (hold + beat.data[..k])) + beat.data[k..][..|hold| - beat.pad] == Image(Packet(hdr, got + Bytes(beat)))
  {
    RealignSpill(sent, hold, hdr.bytes + got, beat.data, k, |beat.data| - beat.pad);
    Assoc(hdr.bytes, got, Bytes(beat));
  }

  lemma FitImage(sent: seq<byte>, hold: seq<byte>, hdr: Header, got: seq<byte>, beat: Beat, k: nat)
    requires |beat.data| == |hold| + k && beat.last && |hold| <= beat.pad < |beat.data| && sent + hold == hdr.bytes + got && !hdr.bare
    ensures sent + Bytes(Beat(hold + beat.data[..k], true, beat.pad - |hold|)) == Image(Packet(hdr, got + Bytes(beat)))
  {
    RealignFit(sent, hold, hdr.bytes + got, beat.data, k, |beat.data| - beat.pad);
    Assoc(hdr.bytes, got, Bytes(beat));
  }

  lemma PassSpill(t: Trace, B: nat, hdr: Header, hold: seq<byte>, beat: Beat, k: nat)
    requires Streaming(t, B, hdr, hold)
    requires |beat.data| == B == |hold| + k && beat.last && beat.pad < |hold|
    ensures
      var emitted := Beat(hold + beat.data[..k], false, 0);
      var p := Packet(hdr, Pending(t.dataIn) + Bytes(beat));
      Draining(t.(dataIn := t.dataIn + [beat], out := t.out + [emitted], packets := t.packets + [p]), B,
               beat.data[k..][..|hold| - beat.pad])
  {
    hide Frames, Closed, Open, Payload, Pending, Headers, Bodies, Images, Image;
    var got, sent, emitted := Pending(t.dataIn), Pending(t.out), Beat(hold + beat.data[..k], false, 0);
    var p, rest := Packet(hdr, got + Bytes(beat)), beat.data[k..][..|hold| - beat.pad];
    Push(t.dataIn, beat);
    Push(t.out, emitted);
    PushPacket(t.packets, p);
    SpillImage(sent, hold, hdr, got, beat, k);
  }

  lemma PassFit(t: Trace, B: nat, hdr: Header, hold: seq<byte>, beat: Beat, k: nat)
    requires Streaming(t, B, hdr, hold)
    requires |beat.data| == B == |hold| + k && beat.last && |hold| <= beat.pad < B
    ensures
      var emitted := Beat(hold + beat.data[..k], true, beat.pad - |hold|);
      var p := Packet(hdr, Pending(t.dataIn) + Bytes(beat));
      Idle(t.(dataIn := t.dataIn + [beat], out := t.out + [emitted], packets := t.packets + [p]), B)
  {
    hide Frames, Closed, Open, Payload, Pending, Headers, Bodies, Images, Image;
    var got, sent, emitted := Pending(t.dataIn), Pending(t.out), Beat(hold + beat.data[..k], true, beat.pad - |hold|);
    var p := Packet(hdr, got + Bytes(beat));
    Push(t.dataIn, beat);
    Push(t.out, emitted);
    PushPacket(t.packets, p);
    FitImage(sent, hold, hdr, got, beat, k);
  }

  lemma Drain(t: Trace, B: nat, hold: seq<byte>, filler: seq<byte>, pad: nat)
    requires |hold| + |filler| == B && pad < |hold|
    requires Draining(t, B, hold[..|hold| - pad])
    ensures Idle(t.(out := t.out + [Beat(hold + filler, true, pad + |filler|)]), B)
  {
    hide Frames, Closed, Open, Payload, Pending, Headers, Bodies, Images;
    var emitted := Beat(hold + filler, true, pad + |filler|);
    assert Bytes(emitted) == hold[..|hold| - pad];
    Push(t.out, emitted);
    assert t.packets == t.packets[..|t.packets| - 1] + [t.packets[|t.packets| - 1]];
    PushPacket(t.packets[..|t.packets| - 1], t.packets[|t.packets| - 1]);
  }

  /** The packet, if any, whose input a cycle completes. */
  function Done(s: State, hdrTaken: bool, hdr: Header, bodyEnds: bool, current: Header, body: seq<byte>): seq<Packet> {
    match s
    case Ready => if hdrTaken && hdr.bare then [Packet(hdr, [])] else []
    case Input => if bodyEnds then [Packet(current, body)] else []
    case Last => []
  }

  /** Where a cycle leaves the controller, told from the handshakes alone. */
  function Next(s: State, hdrTaken: bool, bare: bool, bodyEnds: bool, sent: bool, sentLast: bool): State {
    match s
    case Ready => if !hdrTaken then Ready else if bare then Last else Input
    case Input => if !bodyEnds then Input else if sentLast then Ready else Last
    case Last => if sent then Ready else Last
  }

  class Inserter {
    const B: nat
    const H: nat

    var state: State
    var hold: seq<byte>
    var padReg: nat

    ghost var t: Trace
    ghost var current: Header

    ghost predicate Valid()
      reads this
    {
      && 0 < H <= B
      && |hold| == H
      && match state {
        case Ready => Idle(t, B)
        case Input => Streaming(t, B, current, hold)
        case Last => padReg < H && Draining(t, B, hold[..H - padReg])
      }
    }

    constructor (busBytes: nat, headerBytes: nat)
      requires 0 < headerBytes <= busBytes
      ensures Valid() && B == busBytes && H == headerBytes
      ensures state == Ready && t == Trace([], [], [], [])
    {
      B, H := busBytes, headerBytes;
      state, hold, padReg := Ready, seq(headerBytes, _ => 0), 0;
      t, current := Trace([], [], [], []), Header([], false);
    }

    /** One clock edge. */
    method Step(hdrVal: bool, hdr: Header, dataVal: bool, beat: Beat, cmdRdy: bool, reqRdy: bool)
      returns (hdrRdy: bool, dataRdy: bool, outVal: bool, emitted: Beat)
      requires Valid()
      requires |hdr.bytes| == H
      requires OnBus(beat, B)
      modifies this
      ensures Valid()
      ensures hdrRdy == (old(state).Ready? && cmdRdy)
      ensures dataRdy == (old(state).Input? && reqRdy)
      ensures outVal == (old(state).Last? || (old(state).Input? && dataVal))
      ensures t.headers == old(t.headers) + Maybe(hdrVal && hdrRdy, hdr)
      ensures t.dataIn == old(t.dataIn) + Maybe(dataVal && dataRdy, beat)
      ensures t.out == old(t.out) + Maybe(outVal && reqRdy, emitted)
      ensures t.packets == old(t.packets)
        + Done(old(state), hdrVal && hdrRdy, hdr, dataVal && dataRdy && beat.last, old(current), Pending(old(t.dataIn)) + Bytes(beat))
      ensures current == if hdrVal && hdrRdy then hdr else old(current)
      ensures state == Next(old(state), hdrVal && hdrRdy, hdr.bare, dataVal && dataRdy && beat.last, outVal && reqRdy, emitted.last)
      ensures OnBus(emitted, B)
      ensures outVal && reqRdy && emitted.last <==> !old(state).Ready? && state.Ready?
    {
      hide Idle, Streaming, Draining, Truncated;
      hdrRdy, dataRdy, outVal := false, false, false;
      emitted := Beat(hold + beat.data[..B - H], false, 0);
      match state {
        case Ready =>
          hdrRdy := cmdRdy;
          if hdrVal && cmdRdy {
            hold, current := hdr.bytes, hdr;
            if hdr.bare {
              TakeBare(t, B, hdr);
              assert hold[..H] == hdr.bytes;
              padReg, state := 0, Last;
              t := t.(headers := t.headers + [hdr], packets := t.packets + [Packet(hdr, [])]);
            } else {
              TakePayload(t, B, hdr);
              state := Input;
              t := t.(headers := t.headers + [hdr]);
            }
          }
        case Input =>
          dataRdy, outVal := reqRdy, dataVal;
          if dataVal && reqRdy {
            ghost var p := Packet(current, Pending(t.dataIn) + Bytes(beat));
            if beat.last && beat.pad < H {
              PassSpill(t, B, current, hold, beat, B - H);
              padReg, hold, state := beat.pad, beat.data[B - H..], Last;
              t := t.(packets := t.packets + [p]);
            } else if beat.last {
              PassFit(t, B, current, hold, beat, B - H);
              emitted := emitted.(last := true, pad := Truncated(beat.pad + (B - H), B));
              state := Ready;
              t := t.(packets := t.packets + [p]);
            } else {
              PassMiddle(t, B, current, hold, beat, B - H);
              hold := beat.data[B - H..];
            }
            t := t.(dataIn := t.dataIn + [beat], out := t.out + [emitted]);
          }
        case Last =>
          outVal := true;
          emitted := emitted.(last := true, pad := Truncated(padReg + (B - H), B));
          if reqRdy {
            Drain(t, B, hold, beat.data[..B - H], padReg);
            state := Ready;
            t := t.(out := t.out + [emitted]);
          }
      }
    }
  }
}
