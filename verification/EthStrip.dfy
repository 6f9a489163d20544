/** `eth_frame_format`: strips a plain or VLAN-tagged Ethernet header. */
module EthStrip {
  import opened Streams
  import opened Parsing
  import opened Verdicts
  import opened Realigner

  datatype State = Ready | FirstData | Output | OutputLast | WaitFin
  datatype HdrState = Waiting | HdrOutput | HdrWaitFin

  /** The registers. `left` has one bit more than a padbytes field. */
  datatype All = All(state: State, h: HdrState, hdr: seq<byte>, upper: seq<byte>, lower: seq<byte>, shift: nat, pad: nat, left: nat)

  const HDR: nat := 14

  /** The header register after a frame: from a VLAN frame only the type is taken, so the
      addresses on offer are those of the last plain frame. */
  function NextHdrReg(hdr: seq<byte>, f: seq<byte>): (h: seq<byte>)
    requires |hdr| == HDR && HDR <= |f|
    ensures |h| == HDR
  {
    if Skip(Eth, f) == 18 && 18 <= |f| then hdr[..12] + f[16..18] else f[..HDR]
  }

  /** The headers that belong to a list of frames, from a register that starts as zero. */
  function EthHdrs(fs: seq<seq<byte>>): (hs: seq<seq<byte>>)
    ensures |hs| == |fs| && forall i :: 0 <= i < |hs| ==> |hs[i]| == HDR
  {
    if fs == [] then []
    else
      var before, f := EthHdrs(fs[..|fs| - 1]), fs[|fs| - 1];
      before + [if HDR <= |f| then NextHdrReg(LastHdr(before), f) else LastHdr(before)]
  }

  function LastHdr(hs: seq<seq<byte>>): (h: seq<byte>)
    requires forall i :: 0 <= i < |hs| ==> |hs[i]| == HDR
    ensures |h| == HDR
  {
    if hs == [] then seq(HDR, _ => 0) else hs[|hs| - 1]
  }

  datatype Log = Log(t: Trace, hdrs: seq<seq<byte>>, done: seq<seq<byte>>, head: seq<byte>, body: seq<byte>)

  /** The bytes still to be sent, from the byte counter and the padding. */
  function Missing(left: nat, shift: nat, pad: nat, B: nat): nat
    requires shift + pad < 2 * B
  {
    if left > B then left else B - Truncated(shift + pad, B)
  }

  ghost predicate DataOk(a: All, log: Log, B: nat) {
    && 18 < B && |a.upper| == |a.lower| == B && a.shift <= 18 && (a.state != Ready ==> 14 <= a.shift)
    && match a.state
       case Ready => Idle(Eth, log.t, log.done, B)
       case FirstData => First(Eth, log.t, log.done, B, log.head, a.upper, a.shift)
       case Output => Streaming(Eth, log.t, log.done, B, log.head, a.upper, a.lower, a.shift)
       case OutputLast =>
         && a.pad < B && a.left < 2 * B && (a.left > B ==> a.left == 2 * B - a.shift - a.pad)
         && 0 < Missing(a.left, a.shift, a.pad, B) <= 2 * B - a.shift
         && Draining(Eth, log.t, log.done, B, log.head, (a.upper + a.lower)[a.shift..][..Missing(a.left, a.shift, a.pad, B)])
       case WaitFin => Finished(Eth, log.t, log.done, B, log.head, log.body)
  }

  ghost predicate HdrOk(a: All, log: Log) {
    && |a.hdr| == HDR && (a.state == Ready <==> a.h == Waiting)
    && (if a.state == Ready then a.hdr == LastHdr(EthHdrs(log.done)) && log.hdrs == EthHdrs(log.done)
        else HDR <= |log.head| && a.hdr == NextHdrReg(LastHdr(EthHdrs(log.done)), log.head)
             && log.hdrs == EthHdrs(log.done) + Maybe(a.h == HdrWaitFin, a.hdr))
  }

  ghost predicate Inv(a: All, log: Log, B: nat) {
    DataOk(a, log, B) && HdrOk(a, log)
  }

  /** A first beat the formatter can handle: in a frame of one beat, a payload byte. */
  predicate FirstOk(b: Beat, B: nat) {
    b.last ==> Skip(Eth, b.data) < B - b.pad
  }

  // ----- the steps, on the data registers -----

  function Took(a: All, b: Beat, B: nat): All
    requires |a.hdr| == HDR && 18 < B == |b.data|
  {
    var s := Skip(Eth, b.data);
    a.(state := if b.last then OutputLast else FirstData, h := HdrOutput, hdr := NextHdrReg(a.hdr, b.data),
       upper := b.data, shift := s, pad := if b.last then b.pad else a.pad, left := if b.last then B - s else a.left)
  }

  lemma Take(a: All, log: Log, B: nat, b: Beat)
    requires Inv(a, log, B) && a.state == Ready && OnBus(b, B) && FirstOk(b, B)
    ensures Inv(Took(a, b, B), log.(t := log.t.(inp := log.t.inp + [b]), head := b.data[..Skip(Eth, b.data)]), B)
  {
    hide Idle, First, Streaming, Draining, Finished, EthHdrs, NextHdrReg, Skip;
    SkipRange(b.data);
    HdrOfHead(a.hdr, b.data, Skip(Eth, b.data));
    TakeData(a, log, B, b);
    hide DataOk;
  }

  lemma SkipRange(s: seq<byte>)
    ensures Skip(Eth, s) == 14 || Skip(Eth, s) == 18
  {
  }

  lemma TakeData(a: All, log: Log, B: nat, b: Beat)
    requires DataOk(a, log, B) && |a.hdr| == HDR && a.state == Ready && OnBus(b, B) && FirstOk(b, B)
    ensures Skip(Eth, b.data) <= B
    ensures DataOk(Took(a, b, B), log.(t := log.t.(inp := log.t.inp + [b]), head := b.data[..Skip(Eth, b.data)]), B)
  {
    hide Idle, First, Streaming, Draining, Finished, NextHdrReg, Skip, Before, Pending;
    SkipRange(b.data);
    var s := Skip(Eth, b.data);
    Opening(log.t, log.done, B, b);
    assert [] + b.data[..s] == b.data[..s];
    if b.last {
      ReachLast(Eth, log.t, log.done, B, b, s);
      OneLine(b.data, a.lower, s, b.pad, B);
    } else {
      Reach(Eth, log.t, log.done, B, b, s);
    }
  }

  lemma HdrOfHead(hdr: seq<byte>, data: seq<byte>, s: nat)
    requires |hdr| == HDR && 18 < |data| && s == Skip(Eth, data)
    ensures HDR <= |data[..s]| && NextHdrReg(hdr, data[..s]) == NextHdrReg(hdr, data)
  {
    SkipPrefix(Eth, data[..s], data[s..]);
    assert data == data[..s] + data[s..];
  }

  lemma Opening(t: Trace, done: seq<seq<byte>>, B: nat, b: Beat)
    requires Idle(Eth, t, done, B) && OnBus(b, B) && FirstOk(b, B) && 18 < B
    ensures Before(Eth, t, done, B, b, Skip(Eth, b.data)) && Pending(t.inp) == []
  {
    hide Idle;
    assert Pending(t.inp) == [] by {
      IdlePending(t, done, B);
    }
  }

  lemma IdlePending(t: Trace, done: seq<seq<byte>>, B: nat)
    requires Idle(Eth, t, done, B)
    ensures Pending(t.inp) == []
  {
  }

  /** FIRST_DATA and DATA_OUTPUT: a beat moves into the lower register. */
  function Moved(a: All, b: Beat, B: nat): All
    requires a.shift + b.pad <= 2 * B
  {
    a.(state := if b.last then OutputLast else Output,
       upper := if a.state == FirstData then a.upper else a.lower, lower := b.data,
       pad := if b.last then b.pad else a.pad,
       left := if b.last then 2 * B - a.shift - b.pad else a.left)
  }

  /** The word on the output. */
  function Top(a: All, B: nat): (w: seq<byte>)
    requires |a.upper| == |a.lower| == B && a.shift <= B
    ensures |w| == B
  {
    (a.upper + a.lower)[a.shift..][..B]
  }

  lemma Move(a: All, log: Log, B: nat, b: Beat)
    requires Inv(a, log, B) && (a.state == FirstData || a.state == Output) && OnBus(b, B)
    ensures |a.upper| == |a.lower| == B && a.shift <= B && a.shift + b.pad <= 2 * B
    ensures Inv(Moved(a, b, B),
      log.(t := Trace(log.t.inp + [b], log.t.out + Maybe(a.state == Output, Beat(Top(a, B), false, 0)))), B)
  {
    hide Idle, First, Streaming, Draining, Finished, EthHdrs, NextHdrReg;
    if a.state == FirstData {
      Second(Eth, log.t, log.done, B, log.head, a.upper, a.shift, b);
    } else {
      Pass(Eth, log.t, log.done, B, log.head, a.upper, a.lower, a.shift, b);
    }
    assert log.t.out + [] == log.t.out;
  }

  /** DATA_OUTPUT_LAST: the last flag and the pad count on the output. */
  function Final(a: All, B: nat): Beat
    requires |a.upper| == |a.lower| == B && a.shift <= 18 < B && a.pad < B
  {
    Beat(Top(a, B), a.left <= B, if a.left <= B then Truncated(a.shift + a.pad, B) else 0)
  }

  function Emptied(a: All, B: nat): All {
    if a.left > B then a.(left := a.left - B, upper := a.lower, lower := seq(B, _ => 0)) else a.(state := WaitFin)
  }

  lemma Empty(a: All, log: Log, B: nat)
    requires Inv(a, log, B) && a.state == OutputLast
    ensures |a.upper| == |a.lower| == B && a.shift <= 18 < B && a.pad < B
    ensures var n := Missing(a.left, a.shift, a.pad, B);
      var log1 := log.(t := log.t.(out := log.t.out + [Final(a, B)]));
      Inv(Emptied(a, B), if a.left > B then log1 else log1.(body := Pending(log.t.out) + Top(a, B)[..n]), B)
    ensures a.left > B ==> Emptied(a, B).left <= B
  {
    hide Idle, First, Streaming, Draining, Finished, EthHdrs, NextHdrReg, Pending;
    var n := Missing(a.left, a.shift, a.pad, B);
    Flush(Eth, log.t, log.done, B, log.head, a.upper, a.lower, a.shift, n);
  }

  /** The header machine moves, or both go idle. */
  lemma HdrMoves(a: All, log: Log, B: nat, hdrRdy: bool)
    requires Inv(a, log, B) && a.state != Ready
    ensures a.h == HdrOutput && hdrRdy ==> Inv(a.(h := HdrWaitFin), log.(hdrs := log.hdrs + [a.hdr]), B)
    ensures a.h == HdrWaitFin && a.state == WaitFin ==>
      Inv(a.(h := Waiting, state := Ready), log.(done := log.done + [log.head + log.body]), B)
  {
    hide Idle, First, Streaming, Draining, Finished, EthHdrs, NextHdrReg, LastHdr, Missing;
    if a.h == HdrWaitFin && a.state == WaitFin {
      Finish(Eth, log.t, log.done, B, log.head, log.body);
      HeadComplete(log.t, log.done, B, log.head, log.body);
      PushEth(log.done, log.head, log.body);
      LastOf(EthHdrs(log.done), a.hdr);
    }
  }

  lemma HeadComplete(t: Trace, done: seq<seq<byte>>, B: nat, head: seq<byte>, body: seq<byte>)
    requires Finished(Eth, t, done, B, head, body)
    ensures IsHead(Eth, head)
  {
  }

  lemma LastOf(hs: seq<seq<byte>>, h: seq<byte>)
    requires |h| == HDR && forall i :: 0 <= i < |hs| ==> |hs[i]| == HDR
    ensures LastHdr(hs + [h]) == h
  {
  }

  lemma PushEth(fs: seq<seq<byte>>, head: seq<byte>, body: seq<byte>)
    requires HDR <= |head| && IsHead(Eth, head)
    ensures EthHdrs(fs + [head + body]) == EthHdrs(fs) + [NextHdrReg(LastHdr(EthHdrs(fs)), head)]
  {
    assert (fs + [head + body])[..|fs|] == fs;
    SkipPrefix(Eth, head, body);
    assert (head + body)[..HDR] == head[..HDR];
    assert |head| == 18 ==> (head + body)[16..18] == head[16..18];
  }

  /** The cycles both machines still need for what they have taken. */
  function Weight(a: All, B: nat): nat {
    (match a.state
     case Ready => 0
     case FirstData | Output => 4
     case OutputLast => if a.left > B then 3 else 2
     case WaitFin => 1)
    + match a.h case Waiting => 0 case HdrOutput => 2 case HdrWaitFin => 1
  }

  /** Nothing to do but to take the next beat. */
  predicate AwaitsBeat(a: All) {
    a.state in {Ready, FirstData, Output} && a.h != HdrOutput
  }

  class Formatter {
    const B: nat
    var a: All
    ghost var log: Log

    ghost predicate Valid()
      reads this
    {
      Inv(a, log, B)
    }

    constructor (busBytes: nat)
      requires 18 < busBytes
      ensures Valid() && B == busBytes && a.state == Ready && log == Log(Trace([], []), [], [], [], [])
    {
      B := busBytes;
      a := All(Ready, Waiting, seq(HDR, _ => 0), seq(busBytes, _ => 0), seq(busBytes, _ => 0), 0, 0, 0);
      log := Log(Trace([], []), [], [], [], []);
    }

    /** The data machine's half of a clock edge, inside a frame. */
    method DataStep(val: bool, beat: Beat, dataRdy: bool) returns (outVal: bool, out: Beat)
      requires Valid() && a.state != Ready && OnBus(beat, B)
      modifies this
      ensures Valid() && OnBus(out, B) && a.state != Ready && a.h == old(a.h) && a.hdr == old(a.hdr)
      ensures log.hdrs == old(log.hdrs) && log.done == old(log.done)
      ensures outVal == (old(a.state) == OutputLast || (old(a.state) == Output && val))
      ensures log.t.inp == old(log.t.inp) + Maybe(val && (old(a.state) == FirstData || (old(a.state) == Output && dataRdy)), beat)
      ensures log.t.out == old(log.t.out) + Maybe(outVal && dataRdy, out)
      // draining takes at most two output beats
      ensures old(a.state) == OutputLast && dataRdy ==> a.state == WaitFin || (old(a.left) > B && a.left <= B)
      ensures Weight(a, B) <= old(Weight(a, B)) && (old(a.state) == OutputLast && dataRdy ==> Weight(a, B) < old(Weight(a, B)))
    {
      hide Inv, Top;
      outVal, out := false, Beat(beat.data, false, 0);
      if a.state == FirstData || a.state == Output {
        Move(a, log, B, beat);
        outVal, out := a.state == Output && val, Beat(Top(a, B), false, 0);
        if val && (a.state == FirstData || dataRdy) {
          log := log.(t := Trace(log.t.inp + [beat], log.t.out + Maybe(a.state == Output, out)));
          a := Moved(a, beat, B);
        }
      } else if a.state == OutputLast {
        Empty(a, log, B);
        outVal, out := true, Final(a, B);
        if dataRdy {
          ghost var log1 := log.(t := log.t.(out := log.t.out + [out]));
          log := if a.left > B then log1 else log1.(body := Pending(log.t.out) + Top(a, B)[..Missing(a.left, a.shift, a.pad, B)]);
          a := Emptied(a, B);
        }
      }
    }

    /** One clock edge. */
    method Step(val: bool, beat: Beat, hdrRdy: bool, dataRdy: bool)
      returns (srcRdy: bool, hdrVal: bool, hdr: seq<byte>, outVal: bool, out: Beat)
      requires Valid() && OnBus(beat, B)
      requires val && a.state == Ready ==> FirstOk(beat, B)
      modifies this
      ensures Valid() && OnBus(out, B)
      ensures srcRdy == (old(a.state) == Ready || old(a.state) == FirstData || (old(a.state) == Output && dataRdy))
      ensures hdrVal == (old(a.h) == HdrOutput)
      ensures outVal == (old(a.state) == OutputLast || (old(a.state) == Output && val))
      ensures log.t.inp == old(log.t.inp) + Maybe(val && srcRdy, beat)
      ensures log.t.out == old(log.t.out) + Maybe(outVal && dataRdy, out)
      ensures log.hdrs == old(log.hdrs) + Maybe(hdrVal && hdrRdy, hdr)
      // the header on offer does not change until it is taken
      ensures hdr == old(a.hdr) && (hdrVal && !hdrRdy ==> a.h == HdrOutput && a.hdr == hdr)
      // progress: only a beat that comes in adds work, and without stalls every cycle does some
      ensures Weight(a, B) <= old(Weight(a, B)) + if val && srcRdy then 6 else 0
      ensures hdrRdy && dataRdy && !(val && srcRdy) ==> Weight(a, B) < old(Weight(a, B)) || old(AwaitsBeat(a))
    {
      hide Inv;
      srcRdy := a.state == Ready || a.state == FirstData || (a.state == Output && dataRdy);
      hdrVal, hdr, outVal, out := a.h == HdrOutput, a.hdr, false, Beat(beat.data, false, 0);
      TwinStates(a, log, B);
      if a.state == Ready {
        if val {
          Take(a, log, B, beat);
          log := log.(t := log.t.(inp := log.t.inp + [beat]), head := beat.data[..Skip(Eth, beat.data)]);
          a := Took(a, beat, B);
        }
      } else if a.state == WaitFin && a.h == HdrWaitFin {
        HdrMoves(a, log, B, hdrRdy);
        log := log.(done := log.done + [log.head + log.body]);
        a := a.(h := Waiting, state := Ready);
      } else {
        outVal, out := DataStep(val, beat, dataRdy);
        HdrMoves(a, log, B, hdrRdy);
        if a.h == HdrOutput && hdrRdy {
          log := log.(hdrs := log.hdrs + [a.hdr]);
          a := a.(h := HdrWaitFin);
        }
      }
    }
  }

  /** The twin machines are idle together. */
  lemma TwinStates(a: All, log: Log, B: nat)
    requires Inv(a, log, B)
    ensures 18 < B && |a.hdr| == HDR && (a.state == Ready <==> a.h == Waiting)
  {
    hide Idle, First, Streaming, Draining, Finished, EthHdrs, NextHdrReg;
  }

  // ----- what it amounts to -----

  /** The Ethernet formatter drops nothing. */
  lemma {:induction false} NothingDropped(h: seq<Beat>)
    ensures Judge(Eth, Closed(h)) == Verdict(Frames(h), false)
  {
    if h != [] {
      var init, b := h[..|h| - 1], h[|h| - 1];
      NothingDropped(init);
      assert h == init + [b];
      Push(init, b);
      hide Closed, Frames, Judge;
      if b.last {
        PushJudge(Eth, Closed(init), Open(init) + [b]);
        PushPayload(Open(init), b);
        PendingIs(init);
      }
    }
  }

  /** Ethernet strip. The frames handed over are the frames taken, each without its first
      14 bytes, or 18 with a VLAN tag, in order and with exact lengths; at most the frame
      under way is missing, and what is out of that one is the beginning of its payload. The
      headers handed over are those of the frames taken. */
  lemma Strips(f: Formatter)
    requires f.Valid()
    ensures var t := f.log.t;
      && AllClean(t.out, f.B)
      && f.log.done <= Frames(t.inp) && |Frames(t.inp)| <= |f.log.done| + 1
      && EthHdrs(f.log.done) <= f.log.hdrs && |f.log.hdrs| <= |f.log.done| + 1
      && (f.a.state != WaitFin ==> Frames(t.out) == Tails(Eth, f.log.done))
      && (f.a.state in {Ready, FirstData, WaitFin} ==> Open(t.out) == [])
      && (f.a.state == Output ==> Frames(t.inp) == f.log.done && Underway(Eth, Pending(t.out), Pending(t.inp)))
      && (f.a.state == OutputLast ==> |Frames(t.inp)| == |f.log.done| + 1 && Underway(Eth, Pending(t.out), Frames(t.inp)[|f.log.done|]))
      && (f.a.state == Ready ==>
          f.log.done == Frames(t.inp) && Frames(t.out) == Tails(Eth, Frames(t.inp)) && f.log.hdrs == EthHdrs(Frames(t.inp)))
      && (f.a.state == WaitFin ==> Frames(t.out) == Tails(Eth, Frames(t.inp)))
  {
    hide Frames, Closed, Tails, EthHdrs, NextHdrReg, Judge, Open, Pending, AllClean;
    hide Skip, Knows, Passes, Underway;
    NothingDropped(f.log.t.inp);
    var a, sent := f.a, Pending(f.log.t.out);
    if a.state == WaitFin {
      PushGood(Eth, f.log.done, f.log.head, f.log.body);
    } else if a.state == Output {
      PartOf(Eth, f.log.head, sent, (a.upper + a.lower)[a.shift..]);
    } else if a.state == OutputLast {
      PartOf(Eth, f.log.head, sent, (a.upper + a.lower)[a.shift..][..Missing(a.left, a.shift, a.pad, f.B)]);
    }
  }

  /** The header offered for frame `k` depends on the frames up to it only. */
  lemma {:induction false} EthHdrAt(fs: seq<seq<byte>>, k: nat)
    requires k < |fs| && HDR <= |fs[k]|
    ensures EthHdrs(fs)[k] == NextHdrReg(LastHdr(EthHdrs(fs[..k])), fs[k])
  {
    hide NextHdrReg, LastHdr;
    var n := |fs| - 1;
    if k < n {
      EthHdrAt(fs[..n], k);
      assert fs[..n][..k] == fs[..k];
    }
  }

  /** A header is offered with its own frame's addresses if and only if the frame is plain or
      the addresses offered last happen to be the same. */
  lemma AddressesRightIff(fs: seq<seq<byte>>, k: nat)
    requires k < |fs| && 18 <= |fs[k]|
    ensures EthHdrs(fs)[k][..12] == fs[k][..12] <==>
      (Field16(fs[k], 12) != 0x8100 || LastHdr(EthHdrs(fs[..k]))[..12] == fs[k][..12])
    ensures EthHdrs(fs)[k][12..] == if Field16(fs[k], 12) != 0x8100 then fs[k][12..14] else fs[k][16..18]
  {
    EthHdrAt(fs, k);
    hide EthHdrs;
    var last, f := LastHdr(EthHdrs(fs[..k])), fs[k];
    assert f[..HDR][..12] == f[..12] && f[..HDR][12..] == f[12..14];
    assert (last[..12] + f[16..18])[..12] == last[..12] && (last[..12] + f[16..18])[12..] == f[16..18];
  }

  /** A plain frame, then a VLAN frame from another address: the second header is offered
      with the addresses of the first. */
  lemma StaleAddresses()
    ensures var plain, vlan := seq(12, _ => 1) + [8, 0] + seq(6, _ => 0), seq(12, _ => 2) + [0x81, 0, 0, 5, 8, 0] + [0, 0];
      var hs := EthHdrs([plain, vlan]);
      hs[1][..12] == plain[..12] != vlan[..12] && hs[1][12..] == vlan[16..18]
  {
    var plain: seq<byte>, vlan: seq<byte> :=
      seq(12, _ => 1) + [8, 0] + seq(6, _ => 0), seq(12, _ => 2) + [0x81, 0, 0, 5, 8, 0] + [0, 0];
    var fs := [plain, vlan];
    assert Field16(plain, 12) == 0x800 && Field16(vlan, 12) == 0x8100;
    AddressesRightIff(fs, 1);
    EthHdrAt(fs, 1);
    assert fs[..1] == [plain];
    EthHdrAt([plain], 0);
    var hs := EthHdrs(fs);
    hide EthHdrs;
    assert LastHdr(EthHdrs([plain])) == plain[..HDR];
    assert hs[1][..12] == plain[..12];
    assert plain[..12][0] == 1 && vlan[..12][0] == 2;
  }

  // ----- in terms of Ethernet frames -----

  /** A plain frame, or one with a VLAN tag between addresses and type. */
  datatype EthFrame = Plain(addrs: seq<byte>, kind: seq<byte>, body: seq<byte>)
                    | Vlan(addrs: seq<byte>, tag: seq<byte>, kind: seq<byte>, body: seq<byte>)

  predicate FrameOk(g: EthFrame) {
    && |g.addrs| == 12 && |g.kind| == 2
    && (g.Plain? ==> g.kind != [0x81, 0])
    && (g.Vlan? ==> |g.tag| == 2)
  }

  ghost predicate AllFrames(gs: seq<EthFrame>) {
    forall i :: 0 <= i < |gs| ==> FrameOk(gs[i])
  }

  function Whole(g: EthFrame): seq<byte> {
    match g
    case Plain(addrs, kind, body) => addrs + kind + body
    case Vlan(addrs, tag, kind, body) => addrs + [0x81, 0] + tag + kind + body
  }

  function Wholes(gs: seq<EthFrame>): (fs: seq<seq<byte>>)
    ensures |fs| == |gs| && forall i :: 0 <= i < |gs| ==> fs[i] == Whole(gs[i])
  {
    seq(|gs|, i requires 0 <= i < |gs| => Whole(gs[i]))
  }

  /** The payloads, an empty one yielding no frame. */
  function Payloads(gs: seq<EthFrame>): seq<seq<byte>> {
    if gs == [] then [] else Payloads(gs[..|gs| - 1]) + Maybe(gs[|gs| - 1].body != [], gs[|gs| - 1].body)
  }

  /** The header of a frame, tag included. */
  function HeadOf(g: EthFrame): seq<byte> {
    match g
    case Plain(addrs, kind, _) => addrs + kind
    case Vlan(addrs, tag, kind, _) => addrs + [0x81, 0] + tag + kind
  }

  lemma HeadIs(g: EthFrame)
    requires FrameOk(g)
    ensures IsHead(Eth, HeadOf(g)) && Whole(g) == HeadOf(g) + g.body
    ensures HDR <= |Whole(g)| && (18 <= |Whole(g)| || g.Plain?) && Whole(g)[..12] == g.addrs
    ensures Field16(Whole(g), 12) == 0x8100 <==> g.Vlan?
    ensures if g.Plain? then Whole(g)[12..14] == g.kind else Whole(g)[16..18] == g.kind
  {
    var h := HeadOf(g);
    assert g.Plain? ==> h[12] == g.kind[0] && h[13] == g.kind[1];
    assert g.Plain? && h[12] == 0x81 && h[13] == 0 ==> g.kind == [0x81, 0];
  }

  lemma PushEthFrame(init: seq<EthFrame>, g: EthFrame)
    requires FrameOk(g)
    ensures Tails(Eth, Wholes(init + [g])) == Tails(Eth, Wholes(init)) + Maybe(g.body != [], g.body)
    ensures Payloads(init + [g]) == Payloads(init) + Maybe(g.body != [], g.body)
  {
    hide Tails, IsHead, FrameOk, Whole, HeadOf;
    HeadIs(g);
    assert Wholes(init + [g]) == Wholes(init) + [HeadOf(g) + g.body];
    PushGood(Eth, Wholes(init), HeadOf(g), g.body);
    assert (init + [g])[..|init|] == init;
  }

  lemma NoFrames()
    ensures Tails(Eth, Wholes([])) == Payloads([])
  {
  }

  /** Cutting frames at the header length the formatter computes leaves their payloads. */
  lemma {:induction false} CutFrames(gs: seq<EthFrame>)
    requires AllFrames(gs)
    ensures Tails(Eth, Wholes(gs)) == Payloads(gs)
  {
    hide Tails, Wholes, Whole, FrameOk, Payloads;
    NoFrames();
    if gs != [] {
      CutFrames(gs[..|gs| - 1]);
      PushEthFrame(gs[..|gs| - 1], gs[|gs| - 1]);
      assert gs == gs[..|gs| - 1] + [gs[|gs| - 1]];
    }
  }

  lemma SomeFrames(gs: seq<EthFrame>, n: nat)
    requires AllFrames(gs) && n <= |gs|
    ensures AllFrames(gs[..n]) && gs[..n] <= gs && (n == |gs| ==> gs[..n] == gs)
  {
  }

  lemma FirstWholes(gs: seq<EthFrame>, done: seq<seq<byte>>)
    requires done <= Wholes(gs)
    ensures Wholes(gs[..|done|]) == done
  {
    hide Whole;
  }

  lemma {:induction false} CutsGrow(a: seq<EthFrame>, b: seq<EthFrame>)
    requires a <= b
    ensures Payloads(a) <= Payloads(b)
    decreases |b|
  {
    if a != b {
      assert a <= b[..|b| - 1];
      CutsGrow(a, b[..|b| - 1]);
    }
  }

  /** What is offered for a frame: its type, and unless it is tagged its addresses. */
  predicate Offered(h: seq<byte>, g: EthFrame) {
    |h| == HDR && h[12..] == g.kind && (g.Plain? ==> h[..12] == g.addrs)
  }

  /** The header offered for a frame has its type, and unless it is tagged its addresses. */
  lemma OfferedHdr(gs: seq<EthFrame>, k: nat)
    requires AllFrames(gs) && k < |gs|
    ensures Offered(EthHdrs(Wholes(gs))[k], gs[k])
  {
    hide EthHdrs, Whole, Wholes, HeadOf;
    HeadIs(gs[k]);
    EthHdrAt(Wholes(gs), k);
    var f := Whole(gs[k]);
    var last := LastHdr(EthHdrs(Wholes(gs)[..k]));
    assert f[..HDR][12..] == f[12..14] && f[..HDR][..12] == f[..12];
    if gs[k].Vlan? {
      assert (last[..12] + f[16..18])[12..] == f[16..18];
    }
  }

  /** Whatever Ethernet frames come in, what is handed over are, in order, their payloads, tags
      gone, and at rest all of them; each header with its type. */
  lemma StripsFrames(f: Formatter, gs: seq<EthFrame>)
    requires f.Valid() && AllFrames(gs) && Frames(f.log.t.inp) == Wholes(gs)
    ensures |f.log.done| <= |gs| && |f.log.done| <= |f.log.hdrs|
    ensures Frames(f.log.t.out) <= Payloads(gs)
    ensures forall k :: 0 <= k < |f.log.done| ==> Offered(f.log.hdrs[k], gs[k])
    ensures f.a.state == Ready ==> Frames(f.log.t.out) == Payloads(gs) && |f.log.hdrs| == |f.log.done| == |gs|
  {
    hide *;
    Delivers(f);
    var n := |f.log.done|;
    FirstFrames(gs, f.log.done);
    SomeFrames(gs, n);
    CutsGrow(gs[..n], gs);
    forall k | 0 <= k < n
      ensures Offered(f.log.hdrs[k], gs[k])
    {
      OfferedHdr(gs[..n], k);
    }
  }

  /** `Strips`, as far as the lists of frames go. */
  lemma Delivers(f: Formatter)
    requires f.Valid()
    ensures var t := f.log.t;
      && f.log.done <= Frames(t.inp) && EthHdrs(f.log.done) <= f.log.hdrs
      && Frames(t.out) in {Tails(Eth, f.log.done), Tails(Eth, Frames(t.inp))}
      && (f.a.state == Ready ==> f.log.done == Frames(t.inp) && f.log.hdrs == EthHdrs(Frames(t.inp)))
  {
    hide Frames, Closed, Tails, EthHdrs, Open, Pending, Underway, AllClean, Formatter.Valid;
    Strips(f);
  }

  lemma FirstFrames(gs: seq<EthFrame>, done: seq<seq<byte>>)
    requires AllFrames(gs) && done <= Wholes(gs)
    ensures AllFrames(gs[..|done|]) && Wholes(gs[..|done|]) == done
    ensures Tails(Eth, done) == Payloads(gs[..|done|]) && Tails(Eth, Wholes(gs)) == Payloads(gs)
  {
    hide Tails, Payloads, Whole, FrameOk;
    FirstWholes(gs, done);
    CutFrames(gs[..|done|]);
    CutFrames(gs);
  }

  /** What `Step` asks of the input is met by every frame with a payload, however it is cut into
      beats. */
  lemma FramesFit(sent: seq<Beat>, b: Beat, h: seq<Beat>, gs: seq<EthFrame>, B: nat)
    requires 18 < B && sent + [b] <= h && Open(h) == [] && AllClean(h, B) && Open(sent) == []
    requires AllFrames(gs) && Frames(h) == Wholes(gs)
    requires forall i :: 0 <= i < |gs| ==> gs[i].body != []
    ensures OnBus(b, B) && FirstOk(b, B)
  {
    hide Closed, Open, Frames, Payload, Pending, FirstOk, Whole, FrameOk;
    var f := NextBeat(sent, b, h, B);
    FramesAre(h);
    var j :| 0 <= j < |Closed(h)| && Closed(h)[j] == f;
    assert Frames(h)[j] == Whole(gs[j]) == Payload(f);
    NothingPending(sent);
    BeatFits(gs[j], b, B);
  }

  lemma BeatFits(g: EthFrame, b: Beat, B: nat)
    requires FrameOk(g) && g.body != [] && OnBus(b, B)
    requires b.last ==> Whole(g) == [] + Bytes(b)
    ensures FirstOk(b, B)
  {
    hide Whole, HeadOf, Skip, FrameOk;
    if b.last {
      HeadIs(g);
      var x := b.data[|Bytes(b)|..];
      assert b.data == Bytes(b) + x;
      SkipPrefix(Eth, Whole(g), x);
      SkipPrefix(Eth, HeadOf(g), g.body);
      assert [] + Bytes(b) == Bytes(b);
    }
  }
}
