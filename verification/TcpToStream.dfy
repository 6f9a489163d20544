/** `tcp_to_stream`: the TCP header in front of a payload that comes without last flags;
    two byte counters tell where it ends. */
module TcpToStream {
  import opened Streams
  import opened Modular
  import opened TwinInserter
  import P = PrefixInserter
  import opened AdderTree

  datatype HdrState = Waiting | HdrOutput | HdrWaitFin

  /** What the header interface hands over with a segment. */
  datatype Meta = Meta(src: nat, dst: nat, len: nat)

  /** The segment on the header input: addresses, TCP length and a 20-byte header. */
  predicate SegmentOk(m: Meta, header: seq<byte>) {
    |header| == HDR && HDR <= m.len < 0x1_0000
  }

  /** The counters: payload bytes to send and to receive, and whether the saved bytes are
      still the header. */
  datatype Count = Count(toSend: nat, toRecv: nat, saved: bool)

  /** The padding of the last input beat, in a register of log2(B) bits. */
  function InputPad(payload: nat, B: nat): (p: nat)
    requires B > 0
    ensures p < B
  {
    Rem(B - Rem(payload, B), B)
  }

  lemma InputPadIs(payload: nat, beats: nat, v: nat, B: nat)
    requires 0 < v <= B && payload == Lanes(beats, B) + v
    ensures InputPad(payload, B) == B - v
  {
    assert Lanes(beats, B) == B * beats;
    assert B * (beats + 1) == B * beats + B && B * 0 == 0 && B * 1 == B;
    if v < B {
      Divided(payload, B, beats, v);
      Divided(B - v, B, 0, B - v);
    } else {
      Divided(payload, B, beats + 1, 0);
      Divided(B, B, 1, 0);
    }
  }

  /** The word with its low `n` bits cleared, which is what the output mask does with a
      byte count: `n` bits are less than `n` bytes, so only padding is touched. */
  function Cleared(word: seq<byte>, n: nat): (w: seq<byte>)
    requires n <= |word|
    ensures |w| == |word| && w[..|word| - n] == word[..|word| - n]
  {
    seq(|word|, i requires 0 <= i < |word| => ClearedByte(word[i], n - 8 * (|word| - 1 - i)))
  }

  function ClearedByte(b: byte, bits: int): (r: byte)
    ensures bits <= 0 ==> r == b
  {
    if bits <= 0 then b
    else if bits == 1 then b / 2 * 2
    else if bits == 2 then b / 4 * 4
    else if bits == 3 then b / 8 * 8
    else if bits == 4 then b / 16 * 16
    else if bits == 5 then b / 32 * 32
    else if bits == 6 then b / 64 * 64
    else if bits == 7 then b / 128 * 128
    else 0
  }

  /** A word as the number it is on the bus. */
  function Value(word: seq<byte>): nat {
    if word == [] then 0 else 256 * Value(word[..|word| - 1]) + word[|word| - 1] as int
  }

  /** What the mask, all ones shifted left by `n`, leaves of a word. */
  lemma {:induction false} ClearedValue(word: seq<byte>, n: nat)
    requires n <= |word|
    ensures Value(Cleared(word, n)) == Value(word) - Rem(Value(word), Pow2(n))
  {
    hide Cleared, Value, Quot, Rem, Pow2, ClearedByte;
    if word == [] {
      EmptyValue();
      assert Rem(0, Pow2(n)) == 0;
    } else {
      var m := |word| - 1;
      ClearedValue(word[..m], if n < 8 then 0 else n - 8);
      ClearedEnds(word, n);
      ValueEnds(word);
      ValueEnds(Cleared(word, n));
      LowBits(Value(word[..m]), word[m], n);
    }
  }

  lemma EmptyValue()
    ensures Value([]) == 0
  {
  }

  lemma ClearedEnds(word: seq<byte>, n: nat)
    requires word != [] && n <= |word|
    ensures var m, w := |word| - 1, Cleared(word, n);
      w[m] == ClearedByte(word[m], n) && w[..m] == Cleared(word[..m], if n < 8 then 0 else n - 8)
  {
    hide ClearedByte;
  }

  lemma ValueEnds(word: seq<byte>)
    requires word != []
    ensures Value(word) == 256 * Value(word[..|word| - 1]) + word[|word| - 1] as int
  {
  }

  lemma LowBits(p: nat, b: byte, n: nat)
    ensures var k := if n < 8 then 0 else n - 8;
      256 * (p - Rem(p, Pow2(k))) + ClearedByte(b, n) as int == 256 * p + b as int - Rem(256 * p + b as int, Pow2(n))
  {
    hide Pow2, Quot, Rem;
    SmallPowers();
    if n < 8 {
      var q := Pow2(n);
      assert Rem(p, 1) == 0;
      LowByte(p, b, q, 256 / q);
    } else {
      HighBits(p, b, Pow2(n - 8));
      NextByte(n - 8);
    }
  }

  lemma SmallPowers()
    ensures Pow2(0) == 1 && Pow2(1) == 2 && Pow2(2) == 4 && Pow2(3) == 8
    ensures Pow2(4) == 16 && Pow2(5) == 32 && Pow2(6) == 64 && Pow2(7) == 128
  {
  }

  lemma NextByte(n: nat)
    ensures Pow2(n + 8) == 256 * Pow2(n)
  {
    Quadruple(n);
    Quadruple(n + 2);
    Quadruple(n + 4);
    Quadruple(n + 6);
  }

  lemma Quadruple(n: nat)
    ensures Pow2(n + 2) == 4 * Pow2(n)
  {
    assert Pow2(n + 1) == 2 * Pow2(n);
  }

  lemma LowByte(p: nat, b: byte, q: nat, t: nat)
    requires q * t == 256
    ensures q > 0 && Rem(256 * p + b as int, q) == b as int % q
  {
    assert q * (t * p) == (q * t) * p;
    Divided(256 * p + b as int, q, t * p + b as int / q, b as int % q);
  }

  lemma HighBits(p: nat, b: byte, q: nat)
    requires q > 0
    ensures Rem(256 * p + b as int, 256 * q) == 256 * Rem(p, q) + b as int
  {
    hide Quot, Rem;
    var k, r := Quot(p, q), Rem(p, q);
    assert (256 * q) * k == 256 * (q * k);
    Divided(256 * p + b as int, 256 * q, k, 256 * r + b as int);
  }

  function Shown(x: Beat): (y: Beat)
    requires x.pad <= |x.data|
    ensures |y.data| == |x.data| && y.pad == x.pad && y.last == x.last
  {
    x.(data := Cleared(x.data, x.pad))
  }

  /** The mask has been applied: as many low bits are zero as the pad field counts. */
  predicate MaskedOut(b: Beat) {
    Rem(Value(b.data), Pow2(b.pad)) == 0
  }

  lemma ShownMasked(x: Beat)
    requires x.pad <= |x.data|
    ensures MaskedOut(Shown(x)) && Value(Shown(x).data) == Value(x.data) - Rem(Value(x.data), Pow2(x.pad))
  {
    hide Cleared, Value, Pow2, Quot, Rem;
    ClearedValue(x.data, x.pad);
    var v, q := Value(x.data), Pow2(x.pad);
    Divided(v - Rem(v, q), q, Quot(v, q), 0);
  }

  lemma ShownSame(x: Beat, B: nat)
    requires Clean(x, B)
    ensures Clean(Shown(x), B) && Same(x, Shown(x))
  {
    var y := Shown(x);
    if !x.last {
      assert y.data[..|x.data|] == x.data[..|x.data|];
    }
  }

  datatype Log = Log(t: P.Trace, current: P.Header, metas: seq<Meta>, handed: seq<Meta>)

  /** Inside a segment of `payload` bytes: the receive counter holds what is missing, and
      once the header is out the send counter is 20 more. */
  ghost predicate Counting(c: Count, pad: nat, got: nat, beats: nat, payload: nat, B: nat) {
    && B > 0 && got == Lanes(beats, B) && got + c.toRecv == payload && 0 < c.toRecv
    && pad == InputPad(payload, B)
    && (c.saved <==> beats == 0)
    && c.toSend == (if c.saved then c.toRecv else c.toRecv + HDR)
  }

  ghost predicate LengthsOk(log: Log) {
    && |log.t.packets| <= |log.metas| == |log.t.headers|
    && forall i :: 0 <= i < |log.t.packets| ==>
      var p := log.t.packets[i];
      log.metas[i].len == HDR + (if p.hdr.bare then 0 else |p.body|)
  }

  /** Whether this input beat is the last, and whether its bytes still fit in the output. */
  predicate LastIn(c: Count, B: nat) {
    c.toRecv <= B
  }

  predicate LastOut(c: Count, B: nat) {
    if c.saved then c.toSend <= B - HDR else c.toSend <= B
  }

  /** The counters are large enough for what a beat subtracts. */
  predicate InRange(c: Count, B: nat) {
    !LastIn(c, B) || !LastOut(c, B) ==> (if c.saved then B - HDR <= c.toSend else B <= c.toSend)
  }

  /** The counters after a beat; with `InRange`, no subtraction wraps. */
  function NextCount(c: Count, B: nat): Count
    requires InRange(c, B)
  {
    if LastIn(c, B) then
      Count(if LastOut(c, B) then 0 else c.toSend - (if c.saved then B - HDR else B), 0, false)
    else Count(c.toSend - (if c.saved then B - HDR else B), c.toRecv - B, false)
  }

  /** The counters decide exactly what a last flag and a pad count on the input would. */
  lemma CountersDecide(c: Count, pad: nat, got: nat, beats: nat, payload: nat, B: nat)
    requires Counting(c, pad, got, beats, payload, B) && HDR < B
    ensures LastIn(c, B) ==> pad == B - c.toRecv
    ensures LastIn(c, B) ==> (LastOut(c, B) <==> pad >= HDR)
    ensures InRange(c, B)
    ensures !LastIn(c, B) ==> Counting(NextCount(c, B), pad, got + B, beats + 1, payload, B)
  {
    NextLanes(beats, B);
    if LastIn(c, B) {
      InputPadIs(payload, beats, c.toRecv, B);
    }
    hide Lanes, InputPad;
  }

  ghost predicate HdrOk(h: HdrState, s: State, m: Meta, log: Log) {
    && (s == Ready <==> h == Waiting)
    && log.metas == log.handed + Maybe(h == HdrOutput, m)
    && (h != Waiting ==> |log.metas| > 0 && log.metas[|log.metas| - 1] == m)
  }

  /** The counting part of the invariant. */
  ghost predicate CountOk(r: Regs, c: Count, m: Meta, log: Log, B: nat) {
    && LengthsOk(log)
    && (r.state == Output ==>
        && |log.metas| == |log.t.packets| + 1 && HDR <= m.len
        && Counting(c, r.pad, |Pending(log.t.dataIn)|, |Open(log.t.dataIn)|, m.len - HDR, B))
    && (r.state != Output ==> |log.metas| == |log.t.packets|)
  }

  lemma CountBegin(r: Regs, c: Count, m: Meta, log: Log, B: nat, h: P.Header, m1: Meta)
    requires CountOk(r, c, m, log, B) && DataOk(r, log.t, log.current, B) && r.state == Ready
    requires SegmentOk(m1, h.bytes) && h.bare == (m1.len == HDR)
    ensures CountOk(Began(r, h).(pad := if h.bare then 0 else InputPad(m1.len - HDR, B)),
                    Count(m1.len - HDR, m1.len - HDR, true), m1,
                    log.(t := TraceBegan(log.t, h), current := h, metas := log.metas + [m1]), B)
  {
    hide Frames, P.Bodies, P.Images, P.Headers, InputPad;
    NextLanes(0, B);
    assert Pending(log.t.dataIn) == [];
    hide Open, Pending;
  }

  lemma CountPass(r: Regs, c: Count, m: Meta, log: Log, B: nat, b: Beat, out: Beat)
    requires CountOk(r, c, m, log, B) && DataOk(r, log.t, log.current, B) && r.state == Output
    requires HdrMatches(m, log) && |b.data| == B && b.last == LastIn(c, B) && b.pad == (if b.last then r.pad else 0)
    ensures b.last ==> r.pad == B - c.toRecv && (LastOut(c, B) <==> b.pad >= HDR)
    ensures InRange(c, B)
    ensures CountOk(Kept(r, b.data, b.last, b.pad, B), NextCount(c, B), m,
                    log.(t := TraceKept(log.t, log.current, b, out)), B)
  {
    hide P.Idle, P.Draining, P.Bodies, P.Images, InputPad, Frames, Payload;
    var got, beats := |Pending(log.t.dataIn)|, |Open(log.t.dataIn)|;
    CountersDecide(c, r.pad, got, beats, m.len - HDR, B);
    Push(log.t.dataIn, b);
    assert !log.current.bare;
    hide P.Streaming, Pending, Open, Lanes, P.Headers;
  }

  ghost predicate HdrMatches(m: Meta, log: Log) {
    |log.metas| > 0 && log.metas[|log.metas| - 1] == m
  }

  /** Registers of the whole formatter. */
  datatype All = All(r: Regs, c: Count, h: HdrState, m: Meta)

  ghost predicate Inv(a: All, log: Log, B: nat) {
    && DataOk(a.r, log.t, log.current, B) && HdrOk(a.h, a.r.state, a.m, log) && CountOk(a.r, a.c, a.m, log, B)
  }

  function AsHeader(m: Meta, header: seq<byte>): (h: P.Header)
    ensures h.bytes == header
  {
    P.Header(header, m.len == HDR)
  }

  /** The input beat, with the flags that the counters imply. */
  function InputBeat(a: All, data: seq<byte>, B: nat): Beat {
    Beat(data, LastIn(a.c, B), if LastIn(a.c, B) then a.r.pad else 0)
  }

  /** READY: a segment header is taken. */
  lemma TakeSegment(a: All, log: Log, B: nat, m: Meta, header: seq<byte>)
    requires Inv(a, log, B) && a.r.state == Ready && SegmentOk(m, header)
    ensures var h := AsHeader(m, header);
      Inv(All(Began(a.r, h).(pad := if h.bare then 0 else InputPad(m.len - HDR, B)), Count(m.len - HDR, m.len - HDR, true), HdrOutput, m),
          log.(t := TraceBegan(log.t, h), current := h, metas := log.metas + [m]), B)
  {
    var h := AsHeader(m, header);
    Begin(a.r, log.t, log.current, B, h);
    CountBegin(a.r, a.c, a.m, log, B, h, m);
    hide P.Idle, P.Streaming, P.Draining, CountOk, InputPad;
  }

  /** The output word of a payload beat: the counters say whether it is the last. */
  function Sent(a: All, data: seq<byte>, B: nat): Beat
    requires HDR < B == |data| && a.r.pad < B && |a.r.save| == HDR
  {
    var word := a.r.save + data[..B - HDR];
    Shown(if LastIn(a.c, B) && LastOut(a.c, B) then Beat(word, true, Truncated((B - HDR) + a.r.pad, B)) else Beat(word, false, 0))
  }

  lemma SentMasked(a: All, data: seq<byte>, B: nat)
    requires HDR < B == |data| && a.r.pad < B && |a.r.save| == HDR
    ensures MaskedOut(Sent(a, data, B))
  {
    hide Shown, MaskedOut;
    var word := a.r.save + data[..B - HDR];
    ShownMasked(if LastIn(a.c, B) && LastOut(a.c, B) then Beat(word, true, Truncated((B - HDR) + a.r.pad, B)) else Beat(word, false, 0));
  }

  /** The data registers after a payload beat. */
  function Saved(a: All, data: seq<byte>, B: nat): Regs
    requires HDR < B == |data|
  {
    a.r.(state := if !LastIn(a.c, B) then Output else if LastOut(a.c, B) then WaitFin else OutputLast,
         save := data[B - HDR..])
  }

  /** OUTPUT: a payload beat is taken and a beat sent. */
  lemma PassBeat(a: All, log: Log, B: nat, data: seq<byte>)
    requires Inv(a, log, B) && a.r.state == Output && |data| == B
    ensures HDR < B && a.r.pad < B && InRange(a.c, B) && |a.r.save| == HDR
    ensures Inv(a.(r := Saved(a, data, B), c := NextCount(a.c, B)),
                log.(t := TraceKept(log.t, log.current, InputBeat(a, data, B), Sent(a, data, B))), B)
  {
    PadSmall(a, log, B);
    var b := InputBeat(a, data, B);
    var x := Joined(a.r, data, b.last, b.pad, B);
    ShownSame(x, B);
    hide Same, Shown;
    CountPass(a.r, a.c, a.m, log, B, b, Shown(x));
    assert Same(b, b) by {
      SameItself(b);
    }
    PassMasked(a.r, log.t, log.current, B, b, b, Shown(x));
    hide DataOk, CountOk;
    assert Sent(a, data, B) == Shown(x) && Saved(a, data, B) == Kept(a.r, data, b.last, b.pad, B);
  }

  lemma PadSmall(a: All, log: Log, B: nat)
    requires Inv(a, log, B) && a.r.state == Output
    ensures HDR < B && a.r.pad < B && HdrMatches(a.m, log)
  {
    hide P.Streaming, InputPad;
  }

  /** OUTPUT_LAST: the rest goes out. */
  lemma FlushSegment(a: All, log: Log, B: nat)
    requires Inv(a, log, B) && a.r.state == OutputLast
    ensures HDR < B && a.r.pad < HDR
    ensures Inv(a.(r := a.r.(state := WaitFin)), log.(t := log.t.(out := log.t.out + [Shown(Flushed(a.r, B))])), B)
  {
    hide DataOk, Shown, Flushed, Counting;
    Flush(a.r, log.t, log.current, B);
    var x := Flushed(a.r, B);
    ShownSame(x, B);
    SwapLastOut(a.r.(state := WaitFin), log.t, log.current, B, x, Shown(x));
  }

  lemma SwapLastOut(r: Regs, t: P.Trace, current: P.Header, B: nat, x: Beat, y: Beat)
    requires DataOk(r, t.(out := t.out + [x]), current, B) && r.state == WaitFin
    requires Same(x, y) && Clean(y, B) && x.last
    ensures DataOk(r, t.(out := t.out + [y]), current, B)
  {
    SamePush(t.out, x, y);
    var all := t.out + [x];
    assert AllClean(all, B);
    assert forall i :: 0 <= i < |t.out| ==> (t.out + [y])[i] == all[i];
    hide Frames, Open, P.Headers, P.Bodies, P.Images;
  }

  /** The header machine moves. */
  lemma HdrMoves(a: All, log: Log, B: nat, hdrRdy: bool)
    requires Inv(a, log, B) && a.r.state != Ready
    ensures a.h == HdrOutput && hdrRdy ==> Inv(a.(h := HdrWaitFin), log.(handed := log.handed + [a.m]), B)
    ensures a.h == HdrWaitFin && a.r.state == WaitFin ==> Inv(a.(h := Waiting, r := a.r.(state := Ready)), log, B)
  {
    hide P.Idle, P.Streaming, P.Draining, Counting;
  }

  /** The cycles both machines still need for the segment under way. */
  function Weight(s: State, h: HdrState): nat {
    DataWeight(s) + match h case Waiting => 0 case HdrOutput => 2 case HdrWaitFin => 1
  }

  class Formatter {
    const B: nat
    var a: All
    ghost var log: Log

    ghost predicate Valid()
      reads this
    {
      Inv(a, log, B)
    }

    constructor (busBytes: nat)
      requires HDR < busBytes
      ensures Valid() && B == busBytes && a.r.state == Ready
      ensures log == Log(P.Trace([], [], [], []), P.Header([], false), [], [])
    {
      B := busBytes;
      a := All(Regs(Ready, seq(HDR, _ => 0), 0), Count(0, 0, false), Waiting, Meta(0, 0, HDR));
      log := Log(P.Trace([], [], [], []), P.Header([], false), [], []);
    }

    /** The data machine's half of a clock edge, when it does not just wait for its twin. */
    method DataStep(dataVal: bool, data: seq<byte>, dataRdy: bool) returns (outVal: bool, out: Beat)
      requires Valid() && |data| == B && a.r.state != Ready
      modifies this
      ensures Valid() && OnBus(out, B) && a.h == old(a.h) && a.m == old(a.m) && a.r.state != Ready
      ensures outVal ==> MaskedOut(out)
      ensures outVal == (old(a.r.state) == OutputLast || (old(a.r.state) == Output && dataVal))
      ensures log == old(log).(t := log.t)
      ensures log.t.headers == old(log.t.headers) && log.t.out == old(log.t.out) + Maybe(outVal && dataRdy, out)
      ensures log.t.dataIn == old(log.t.dataIn) + Maybe(old(a.r.state) == Output && dataVal && dataRdy, InputBeat(old(a), data, B))
      ensures (old(a.r.state) == Output && !(dataVal && dataRdy)) || old(a.r.state) == WaitFin ==> a == old(a)
      ensures old(a.r.state) == OutputLast ==> a.r.state == if dataRdy then WaitFin else OutputLast
    {
      hide Inv, Shown, NextCount, MaskedOut;
      outVal, out := false, Beat(data, false, 0);
      BusWide(a, log, B);
      if a.r.state == Output {
        PassBeat(a, log, B, data);
        SentMasked(a, data, B);
        outVal, out := dataVal, Sent(a, data, B);
        if dataVal && dataRdy {
          log := log.(t := TraceKept(log.t, log.current, InputBeat(a, data, B), out));
          a := a.(r := Saved(a, data, B), c := NextCount(a.c, B));
        }
      } else if a.r.state == OutputLast {
        FlushSegment(a, log, B);
        ShownMasked(Flushed(a.r, B));
        outVal, out := true, Shown(Flushed(a.r, B));
        if dataRdy {
          log := log.(t := log.t.(out := log.t.out + [out]));
          a := a.(r := a.r.(state := WaitFin));
        }
      }
    }

    /** One clock edge. */
    method Step(hdrVal: bool, m: Meta, header: seq<byte>, dataVal: bool, data: seq<byte>, hdrRdy: bool, dataRdy: bool)
      returns (srcHdrRdy: bool, srcDataRdy: bool, dstHdrVal: bool, dstMeta: Meta, outVal: bool, out: Beat)
      requires Valid() && |data| == B && (hdrVal ==> SegmentOk(m, header))
      modifies this
      ensures Valid() && OnBus(out, B) && (outVal ==> MaskedOut(out))
      ensures srcHdrRdy == (old(a.r.state) == Ready) && srcDataRdy == (old(a.r.state) == Output && dataRdy)
      ensures outVal == (old(a.r.state) == OutputLast || (old(a.r.state) == Output && dataVal))
      ensures dstHdrVal == (old(a.h) == HdrOutput)
      ensures log.t.headers == old(log.t.headers) + Maybe(hdrVal && srcHdrRdy, AsHeader(m, header))
      ensures log.metas == old(log.metas) + Maybe(hdrVal && srcHdrRdy, m)
      ensures log.t.dataIn == old(log.t.dataIn) + Maybe(dataVal && srcDataRdy, InputBeat(old(a), data, B))
      ensures log.t.out == old(log.t.out) + Maybe(outVal && dataRdy, out)
      ensures log.handed == old(log.handed) + Maybe(dstHdrVal && hdrRdy, dstMeta)
      // what is on offer does not change until it is taken
      ensures dstMeta == old(a.m) && (dstHdrVal && !hdrRdy ==> a.h == HdrOutput && a.m == dstMeta)
      // progress: only a new segment adds work, and without stalls every cycle does some unless
      // the machine waits for input
      ensures Weight(a.r.state, a.h) <= old(Weight(a.r.state, a.h)) + if hdrVal && srcHdrRdy then 5 else 0
      ensures hdrRdy && dataRdy && !(hdrVal && srcHdrRdy) ==>
        || Weight(a.r.state, a.h) < old(Weight(a.r.state, a.h))
        || (old(a.r.state) in {Ready, Output} && old(a.h) != HdrOutput)
    {
      hide Inv, InputBeat, MaskedOut;
      srcHdrRdy, srcDataRdy := a.r.state == Ready, a.r.state == Output && dataRdy;
      dstHdrVal, dstMeta := a.h == HdrOutput, a.m;
      outVal, out := false, Beat(data, false, 0);
      TwinStates(a, log, B);
      if a.r.state == Ready {
        if hdrVal {
          TakeSegment(a, log, B, m, header);
          var h := AsHeader(m, header);
          log := log.(t := TraceBegan(log.t, h), current := h, metas := log.metas + [m]);
          a := All(Began(a.r, h).(pad := if h.bare then 0 else InputPad(m.len - HDR, B)),
                   Count(m.len - HDR, m.len - HDR, true), HdrOutput, m);
        }
      } else if a.r.state == WaitFin && a.h == HdrWaitFin {
        HdrMoves(a, log, B, hdrRdy);
        a := a.(h := Waiting, r := a.r.(state := Ready));
      } else {
        outVal, out := DataStep(dataVal, data, dataRdy);
        HdrMoves(a, log, B, hdrRdy);
        if a.h == HdrOutput && hdrRdy {
          log := log.(handed := log.handed + [a.m]);
          a := a.(h := HdrWaitFin);
        }
      }
    }
  }

  lemma BusWide(a: All, log: Log, B: nat)
    requires Inv(a, log, B)
    ensures HDR < B && |a.r.save| == HDR
  {
  }

  /** The twin machines are idle together. */
  lemma TwinStates(a: All, log: Log, B: nat)
    requires Inv(a, log, B)
    ensures HDR < B && (a.r.state == Ready <==> a.h == Waiting)
  {
  }

  /** Header insertion. The frames sent are the headers taken, each followed by exactly as
      many payload bytes as its TCP length announces; at most the segment under way is
      missing, and when the machines are idle nothing is. */
  lemma Inserts(f: Formatter)
    requires f.Valid()
    ensures var t, ms := f.log.t, f.log.metas;
      && P.Headers(t.packets) <= t.headers && |t.headers| <= |t.packets| + 1
      && Frames(t.dataIn) == P.Bodies(t.packets)
      && Frames(t.out) <= P.Images(t.packets) && |t.packets| <= |Frames(t.out)| + 1
      && AllClean(t.out, f.B) && |t.packets| <= |ms| == |t.headers|
      && (forall i :: 0 <= i < |t.packets| ==>
            ms[i].len == HDR + if t.packets[i].hdr.bare then 0 else |t.packets[i].body|)
      && (f.a.r.state == Ready ==> f.log.handed == ms && |t.headers| == |t.packets| == |Frames(t.out)|)
  {
    DataInserts(f.a.r, f.log.t, f.log.current, f.B);
    hide DataOk, Counting, Frames, P.Bodies, P.Headers, P.Images, AllClean;
  }

  /** Once the header is out, the to-send and to-receive counters stay a header apart. */
  lemma CountersApart(f: Formatter)
    requires f.Valid() && f.a.r.state == Output
    ensures f.a.c.toSend == f.a.c.toRecv + if f.a.c.saved then 0 else HDR
    ensures f.a.c.saved <==> Open(f.log.t.dataIn) == []
    ensures f.a.c.toRecv + |Pending(f.log.t.dataIn)| == f.a.m.len - HDR
  {
    hide P.Streaming, Pending, Open;
  }
}
