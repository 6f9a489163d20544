/** `ip_to_ethstream`: the IP header in front of the payload on the data interface, the
    Ethernet header that the assembler finds for it on the header interface. */
module IpToEth {
  import opened Streams
  import opened TwinInserter
  import P = PrefixInserter

  datatype HdrState = Waiting | EthWait | HdrOutput | HdrWaitFin

  /** What the header interface hands over: an Ethernet header and the IP length. */
  datatype Handed = Handed(eth: nat, len: nat)

  function TotLen(ipHdr: seq<byte>): nat
    requires |ipHdr| == HDR
  {
    Field16(ipHdr, 2)
  }

  /** The IP header as the data machine sees it: without payload when its length says so. */
  function AsHeader(ipHdr: seq<byte>): (h: P.Header)
    requires |ipHdr| == HDR
    ensures h.bytes == ipHdr
  {
    P.Header(ipHdr, TotLen(ipHdr) == HDR)
  }

  /** The data as the machine uses it: the pad bytes of a last beat are zero. */
  function Seen(b: Beat): (s: Beat)
    requires b.pad <= |b.data|
    ensures |s.data| == |b.data| && s.pad == b.pad && Same(s, b)
  {
    if b.last then b.(data := Masked(b.data, b.pad)) else b
  }

  /** The header machine: request, wait for the assembler, offer, wait for the twin. */
  function NextHdr(h: HdrState, s: State, taken: bool, ethVal: bool, hdrRdy: bool): HdrState {
    match h
    case Waiting => if s == Ready && taken then EthWait else Waiting
    case EthWait => if !ethVal then EthWait else if hdrRdy then HdrWaitFin else HdrOutput
    case HdrOutput => if hdrRdy then HdrWaitFin else HdrOutput
    case HdrWaitFin => if s == WaitFin then Waiting else HdrWaitFin
  }

  /** `due` are the headers the assembler has answered, `handed` those taken downstream. */
  datatype Log = Log(t: P.Trace, current: P.Header, due: seq<Handed>, handed: seq<Handed>)

  datatype HdrRegs = HdrRegs(ipHdr: seq<byte>, eth: nat)

  ghost predicate HdrOk(h: HdrState, s: State, x: HdrRegs, log: Log) {
    && |x.ipHdr| == HDR
    && (s == Ready <==> h == Waiting)
    && log.due == log.handed + Maybe(h == HdrOutput, Handed(x.eth, TotLen(x.ipHdr)))
    && |log.due| + (if h == EthWait then 1 else 0) == |log.t.headers|
    && (forall i :: 0 <= i < |log.t.headers| ==>
          |log.t.headers[i].bytes| == HDR && log.t.headers[i] == AsHeader(log.t.headers[i].bytes))
    && (forall i :: 0 <= i < |log.due| ==> log.due[i].len == TotLen(log.t.headers[i].bytes))
    && (h != Waiting ==> |log.t.headers| > 0 && log.t.headers[|log.t.headers| - 1] == AsHeader(x.ipHdr))
  }

  /** The cycles both machines still need for the packet under way. */
  function Weight(s: State, h: HdrState): nat {
    DataWeight(s) + match h case Waiting => 0 case EthWait => 3 case HdrOutput => 2 case HdrWaitFin => 1
  }

  /** Nothing to do but to take the next header or beat. */
  predicate AwaitsInput(s: State, h: HdrState) {
    (s == Ready || s == Output) && (h == Waiting || h == HdrWaitFin)
  }

  lemma Twins(h: HdrState, s: State, x: HdrRegs, log: Log)
    requires HdrOk(h, s, x, log)
    ensures (s == Ready <==> h == Waiting) && |x.ipHdr| == HDR
  {
  }

  lemma HdrNext(h: HdrState, s: State, x: HdrRegs, val: bool, ipHdr: seq<byte>, ethVal: bool, eth: nat, hdrRdy: bool)
    requires |x.ipHdr| == |ipHdr| == HDR
    ensures var taken := s == Ready && val;
      var h1, x1 := NextHdr(h, s, taken, ethVal, hdrRdy), NextRegs(h, x, taken, ipHdr, ethVal, eth);
      && |x1.ipHdr| == HDR
      && (h == HdrOutput || (h == EthWait && ethVal) ==>
          !hdrRdy ==> h1 == HdrOutput && x1.eth == (if h == HdrOutput then x.eth else eth) && (!taken ==> x1.ipHdr == x.ipHdr))
  {
  }

  lemma WeightFalls(h: HdrState, s: State, s1: State, taken: bool, ethVal: bool, hdrRdy: bool, dataRdy: bool)
    requires (s == Ready <==> h == Waiting) && (taken ==> s == Ready)
    requires match s
      case Ready => if taken then s1 == Output || s1 == OutputLast else s1 == Ready
      case Output => s1 != Ready
      case OutputLast => s1 == if dataRdy then WaitFin else OutputLast
      case WaitFin => s1 == if h == HdrWaitFin then Ready else WaitFin
    ensures var w, w1 := Weight(s, h), Weight(s1, NextHdr(h, s, taken, ethVal, hdrRdy));
      && w1 <= w + (if taken then 6 else 0)
      && (hdrRdy && dataRdy && ethVal && !taken ==> w1 < w || AwaitsInput(s, h))
  {
  }

  /** What is saved for the last output is zero where it is padding. */
  predicate SaveOk(r: Regs) {
    r.state == OutputLast ==> r.pad < HDR && |r.save| == HDR && ZeroTail(r.save, r.pad)
  }

  /** Masked input gives masked output. */
  lemma ZeroJoined(r: Regs, b: Beat, B: nat)
    requires HDR < B && |r.save| == HDR && OnBus(b, B)
    ensures ZeroPadded(Joined(r, Seen(b).data, b.last, b.pad, B))
    ensures SaveOk(Kept(r, Seen(b).data, b.last, b.pad, B))
  {
    hide Masked;
  }

  lemma ZeroFlushed(r: Regs, B: nat)
    requires HDR < B && SaveOk(r) && r.state == OutputLast
    ensures ZeroPadded(Flushed(r, B))
  {
  }

  class Formatter {
    const B: nat
    var r: Regs
    var hdrState: HdrState
    var x: HdrRegs
    ghost var log: Log

    ghost predicate Valid()
      reads this
    {
      DataOk(r, log.t, log.current, B) && HdrOk(hdrState, r.state, x, log) && SaveOk(r)
    }

    constructor (busBytes: nat)
      requires HDR < busBytes
      ensures Valid() && B == busBytes && r.state == Ready
      ensures log == Log(P.Trace([], [], [], []), P.Header([], false), [], [])
    {
      B, r, hdrState := busBytes, Regs(Ready, seq(HDR, _ => 0), 0), Waiting;
      x := HdrRegs(seq(HDR, _ => 0), 0);
      log := Log(P.Trace([], [], [], []), P.Header([], false), [], []);
    }

    /** OUTPUT and OUTPUT_LAST. */
    method Send(dataVal: bool, beat: Beat, dataRdy: bool)
      returns (r1: Regs, outVal: bool, out: Beat, ghost t1: P.Trace)
      requires Valid() && OnBus(beat, B) && (r.state == Output || r.state == OutputLast)
      ensures DataOk(r1, t1, log.current, B) && OnBus(out, B) && t1.headers == log.t.headers
      ensures SaveOk(r1) && ZeroPadded(out)
      ensures outVal == (r.state == OutputLast || dataVal)
      ensures t1.dataIn == log.t.dataIn + Maybe(r.state == Output && dataVal && dataRdy, beat)
      ensures t1.out == log.t.out + Maybe(outVal && dataRdy, out)
      ensures r1.state == if r.state == Output
        then (if dataVal && dataRdy && beat.last then (if out.last then WaitFin else OutputLast) else Output)
        else if dataRdy then WaitFin else OutputLast
    {
      hide DataOk, HdrOk, Same, Truncated, Masked, TotLen, ZeroTail;
      Sizes(r, log.t, log.current, B);
      r1, t1 := r, log.t;
      if r.state == Output {
        PassSeen(r, t1, log.current, B, beat, Seen(beat));
        ZeroJoined(r, beat, B);
        outVal, out := dataVal, Joined(r, Seen(beat).data, beat.last, beat.pad, B);
        if dataVal && dataRdy {
          r1, t1 := Kept(r, Seen(beat).data, beat.last, beat.pad, B), TraceKept(t1, log.current, beat, out);
        }
      } else {
        ZeroFlushed(r, B);
        outVal, out := true, Flushed(r, B);
        if dataRdy {
          Flush(r, t1, log.current, B);
          r1, t1 := r.(state := WaitFin), t1.(out := t1.out + [out]);
        }
      }
    }

    /** The data machine's half of a clock edge. */
    method DataStep(hdrVal: bool, ipHdr: seq<byte>, ethRdy: bool, dataVal: bool, beat: Beat, dataRdy: bool, fin: bool)
      returns (r1: Regs, outVal: bool, out: Beat, ghost t1: P.Trace, ghost current1: P.Header)
      requires Valid() && |ipHdr| == HDR && OnBus(beat, B)
      ensures DataOk(r1, t1, current1, B) && OnBus(out, B) && SaveOk(r1) && (outVal ==> ZeroPadded(out))
      ensures outVal == (r.state == OutputLast || (r.state == Output && dataVal))
      ensures t1.headers == log.t.headers + Maybe(r.state == Ready && hdrVal && ethRdy, AsHeader(ipHdr))
      ensures t1.dataIn == log.t.dataIn + Maybe(r.state == Output && dataVal && dataRdy, beat)
      ensures t1.out == log.t.out + Maybe(outVal && dataRdy, out)
      ensures r1.state == match r.state
        case Ready => if hdrVal && ethRdy then (if AsHeader(ipHdr).bare then OutputLast else Output) else Ready
        case Output => if dataVal && dataRdy && beat.last then (if out.last then WaitFin else OutputLast) else Output
        case OutputLast => if dataRdy then WaitFin else OutputLast
        case WaitFin => if fin then Ready else WaitFin
    {
      hide DataOk, HdrOk, TotLen;
      r1, outVal, out, t1, current1 := r, false, Beat(beat.data, false, 0), log.t, log.current;
      if r.state == Ready {
        if hdrVal && ethRdy {
          var h := AsHeader(ipHdr);
          Begin(r, t1, current1, B, h);
          r1, t1, current1 := Began(r, h), TraceBegan(t1, h), h;
        }
      } else if r.state == WaitFin {
        if fin {
          Rest(r, t1, current1, B);
          r1 := r.(state := Ready);
        }
      } else {
        r1, outVal, out, t1 := Send(dataVal, beat, dataRdy);
      }
    }

    /** One clock edge. `ethRdy`, `ethVal` and `eth` come from the header assembler. */
    method Step(hdrVal: bool, ipHdr: seq<byte>, dataVal: bool, beat: Beat, ethRdy: bool, ethVal: bool, eth: nat,
                hdrRdy: bool, dataRdy: bool)
      returns (srcHdrRdy: bool, srcDataRdy: bool, dstHdrVal: bool, dstHdr: Handed, outVal: bool, out: Beat)
      requires Valid() && |ipHdr| == HDR && OnBus(beat, B)
      modifies this
      ensures Valid() && OnBus(out, B) && (outVal ==> ZeroPadded(out))
      ensures srcHdrRdy == (old(r.state) == Ready && ethRdy) && srcDataRdy == (old(r.state) == Output && dataRdy)
      ensures outVal == (old(r.state) == OutputLast || (old(r.state) == Output && dataVal))
      ensures dstHdrVal == (old(hdrState) == HdrOutput || (old(hdrState) == EthWait && ethVal))
      ensures log.t.headers == old(log.t.headers) + Maybe(hdrVal && srcHdrRdy, AsHeader(ipHdr))
      ensures log.t.dataIn == old(log.t.dataIn) + Maybe(dataVal && srcDataRdy, beat)
      ensures log.t.out == old(log.t.out) + Maybe(outVal && dataRdy, out)
      ensures log.due == old(log.due) + Maybe(old(hdrState) == EthWait && ethVal, Handed(eth, dstHdr.len))
      ensures log.handed == old(log.handed) + Maybe(dstHdrVal && hdrRdy, dstHdr)
      // the header on offer does not change until it is taken
      ensures dstHdrVal && !hdrRdy ==> hdrState == HdrOutput && dstHdr == Handed(x.eth, TotLen(x.ipHdr))
      ensures old(hdrState) == HdrOutput ==> dstHdr == Handed(old(x).eth, TotLen(old(x).ipHdr))
      // progress: only a new packet adds work, and without stalls every cycle does some unless
      // the machine waits for input
      ensures Weight(r.state, hdrState) <= old(Weight(r.state, hdrState)) + if hdrVal && srcHdrRdy then 6 else 0
      ensures hdrRdy && dataRdy && ethVal && !(hdrVal && srcHdrRdy) ==>
        || Weight(r.state, hdrState) < old(Weight(r.state, hdrState))
        || old(AwaitsInput(r.state, hdrState))
    {
      hide DataOk, HdrOk, NextHdr, NextRegs, P.Headers, P.Bodies, P.Images, Weight, AwaitsInput, TotLen, AsHeader, SaveOk, ZeroPadded;
      Twins(hdrState, r.state, x, log);
      HdrNext(hdrState, r.state, x, hdrVal && ethRdy, ipHdr, ethVal, eth, hdrRdy);
      var taken := r.state == Ready && hdrVal && ethRdy;
      srcHdrRdy, srcDataRdy := r.state == Ready && ethRdy, r.state == Output && dataRdy;
      dstHdrVal := hdrState == HdrOutput || (hdrState == EthWait && ethVal);
      dstHdr := Handed(if hdrState == HdrOutput then x.eth else eth, TotLen(x.ipHdr));
      var r1;
      ghost var t1, current1;
      r1, outVal, out, t1, current1 := DataStep(hdrVal, ipHdr, ethRdy, dataVal, beat, dataRdy, hdrState == HdrWaitFin);
      HdrKeeps(hdrState, r.state, r1.state, x, log, taken, ipHdr, ethVal, eth, hdrRdy, t1, current1);
      WeightFalls(hdrState, r.state, r1.state, taken, ethVal, hdrRdy, dataRdy);
      ghost var log1 := NextLog(hdrState, x, log, ethVal, eth, hdrRdy, t1, current1);
      hdrState, x := NextHdr(hdrState, r.state, taken, ethVal, hdrRdy), NextRegs(hdrState, x, taken, ipHdr, ethVal, eth);
      r, log := r1, log1;
    }
  }

  function NextRegs(h: HdrState, x: HdrRegs, taken: bool, ipHdr: seq<byte>, ethVal: bool, eth: nat): HdrRegs {
    HdrRegs(if taken then ipHdr else x.ipHdr, if h == EthWait && ethVal then eth else x.eth)
  }

  function NextLog(h: HdrState, x: HdrRegs, log: Log, ethVal: bool, eth: nat, hdrRdy: bool, t1: P.Trace, current1: P.Header): Log
    requires |x.ipHdr| == HDR
  {
    var answered := h == EthWait && ethVal;
    var offer := Handed(if h == HdrOutput then x.eth else eth, TotLen(x.ipHdr));
    Log(t1, current1, log.due + Maybe(answered, offer), log.handed + Maybe((h == HdrOutput || answered) && hdrRdy, offer))
  }

  /** Header and data machine stay in step. */
  lemma HdrKeeps(h: HdrState, s: State, s1: State, x: HdrRegs, log: Log, taken: bool, ipHdr: seq<byte>,
                 ethVal: bool, eth: nat, hdrRdy: bool, t1: P.Trace, current1: P.Header)
    requires HdrOk(h, s, x, log) && |ipHdr| == HDR && (taken ==> s == Ready)
    requires t1.headers == log.t.headers + Maybe(taken, AsHeader(ipHdr))
    requires s1 == Ready <==> (s == Ready && !taken) || (s == WaitFin && h == HdrWaitFin)
    ensures HdrOk(NextHdr(h, s, taken, ethVal, hdrRdy), s1, NextRegs(h, x, taken, ipHdr, ethVal, eth),
                  NextLog(h, x, log, ethVal, eth, hdrRdy, t1, current1))
  {
    hide TotLen;
  }

  /** Header insertion. In every reachable state the packets taken are those whose headers
      and data frames came in, and the frames sent are their headers followed by their
      payloads, in order; at most the packet under way is missing. */
  lemma Inserts(f: Formatter)
    requires f.Valid()
    ensures var t := f.log.t;
      && P.Headers(t.packets) <= t.headers && |t.headers| <= |t.packets| + 1
      && Frames(t.dataIn) == P.Bodies(t.packets)
      && Frames(t.out) <= P.Images(t.packets) && |t.packets| <= |Frames(t.out)| + 1
      && AllClean(t.out, f.B)
  {
    DataInserts(f.r, f.log.t, f.log.current, f.B);
  }

  /** The length field of an IP header, in bytes 2 and 3, rules: a packet has a data frame
      exactly if its length is more or less than that of the header, a frame whose payload is as
      long as announced has that length, and it is the length handed over. */
  lemma Lengths(f: Formatter)
    requires f.Valid()
    ensures var t := f.log.t;
      && |Frames(t.out)| <= |t.packets| <= |t.headers| && |f.log.handed| <= |t.headers|
      && (forall i :: 0 <= i < |t.headers| ==> |t.headers[i].bytes| == 20)
      && (forall i :: 0 <= i < |f.log.handed| ==> f.log.handed[i].len == Announced(t.headers[i]))
      && (forall i :: 0 <= i < |t.packets| ==>
            t.packets[i].hdr == t.headers[i] && (t.packets[i].hdr.bare <==> Announced(t.headers[i]) == 20))
      && (forall i :: 0 <= i < |Frames(t.out)| ==>
            Frames(t.out)[i] == t.headers[i].bytes + (if Announced(t.headers[i]) == 20 then [] else t.packets[i].body))
      && (forall i :: 0 <= i < |Frames(t.out)| ==>
            (Announced(t.headers[i]) != 20 ==> |t.packets[i].body| == Announced(t.headers[i]) - 20) ==>
              |Frames(t.out)[i]| == Announced(t.headers[i]))
  {
    hide P.Headers, P.Images, P.Bodies, Frames, DataOk;
    var t := f.log.t;
    DataInserts(f.r, t, f.log.current, f.B);
    P.HeadersAt(t.packets);
  }

  function Announced(h: P.Header): nat {
    if |h.bytes| == 20 then 256 * (h.bytes[2] as int) + h.bytes[3] as int else 0
  }

  /** The twin machines agree: they are idle together, and then every header taken has
      yielded exactly one handed-over Ethernet header, with its own length, and one frame. */
  lemma OneEach(f: Formatter)
    requires f.Valid()
    ensures f.r.state == Ready <==> f.hdrState == Waiting
    ensures f.r.state == Ready ==>
      && |f.log.handed| == |f.log.t.headers| == |f.log.t.packets| == |Frames(f.log.t.out)|
      && f.log.handed == f.log.due
      && forall i :: 0 <= i < |f.log.handed| ==> |f.log.t.headers[i].bytes| == HDR && f.log.handed[i].len == Announced(f.log.t.headers[i])
  {
    P.HeadersAt(f.log.t.packets);
    hide P.Headers, P.Images, P.Bodies, Frames;
  }
}
