/** The DRAM controller: the control machine over the datapath, one `Step` per clock
    edge, refining a plain memory that serves one request after the other. */
module DramController {
  import opened Streams
  import opened DramSpec
  import opened DramDatapath
  import opened DramStore

  datatype State = Ready | RdIssue | RdWait | RdHdr | RdPayload | WrFirst | WrCopy | WrDrain | WrResp

  /** The request bus: the same wires read as a header and as data. */
  datatype Flit = Flit(hdr: Hdr, data: seq<byte>)

  /** The run so far: initial memory, requests answered, payload of the request under
      way, flits sent. */
  datatype Log = Log(init: seq<byte>, done: seq<Request>, got: seq<byte>, out: seq<OutFlit>)

  function Mem0(log: Log): (m: seq<byte>)
    ensures |m| == |log.init|
  {
    SpecMem(log.init, log.done)
  }

  function Out0(log: Log, N: nat): seq<OutFlit>
    requires N > 0
  {
    SpecOut(log.init, log.done, N)
  }

  /** What has been sent of a load's answer. */
  function Partial(h: Hdr, mem: seq<byte>, sent: nat, N: nat): seq<OutFlit>
    requires N > 0
  {
    [Head(AckOf(h, N))] + Bodies(mem, h.addr, sent, N)
  }

  ghost predicate Loading(state: State, r: Regs, mem: seq<byte>, log: Log, N: nat)
    requires N > 0
  {
    && HdrOk(r.hdr, |mem|, N) && r.hdr.op.Load? && mem == Mem0(log)
    && r.sent < Flits(r.hdr.size, N) && r.addr == r.hdr.addr + Lanes(r.sent, N)
    && (!state.RdIssue? ==> r.respLen == Flits(r.hdr.size, N))
    && (state.RdHdr? || state.RdPayload? ==> r.line == Line(mem, r.addr, N))
    && (state.RdHdr? ==> r.sent == 0)
    && log.out == Out0(log, N) + (if r.sent > 0 || state.RdPayload? then Partial(r.hdr, mem, r.sent, N) else [])
  }

  ghost predicate WritePhase(state: State, r: Regs, p: seq<byte>, mem: seq<byte>, m0: seq<byte>, N: nat) {
    match state
    case WrFirst => Storing(r, p, mem, m0, N) && r.flits == 0 < r.hdr.msgLen
    case WrCopy => Storing(r, p, mem, m0, N) && 0 < r.flits < r.hdr.msgLen
    case WrDrain => Storing(r, p, mem, m0, N) && r.flits == r.hdr.msgLen && r.left > 0
    case _ => Finished(r, p, mem, m0, N)
  }

  /** What holds in every reachable state. */
  ghost predicate Inv(state: State, r: Regs, mem: seq<byte>, log: Log, N: nat) {
    && N > 0 && |mem| == |log.init| && AllOk(log.done, |mem|, N)
    && |r.save| == |r.saveMask| == N && |r.line| == 2 * N
    && match state
       case Ready => mem == Mem0(log) && log.out == Out0(log, N)
       case RdIssue | RdWait | RdHdr | RdPayload => Loading(state, r, mem, log, N)
       case WrFirst | WrCopy | WrDrain | WrResp =>
         WritePhase(state, r, log.got, mem, Mem0(log), N) && log.out == Out0(log, N)
  }

  /** The response header flit. */
  function RespHead(r: Regs, N: nat): OutFlit
    requires N > 0
  {
    Head(AckOf(r.hdr, N))
  }

  // ----- the steps -----

  lemma Begin(r: Regs, mem: seq<byte>, log: Log, h: Hdr, N: nat)
    requires Inv(Ready, r, mem, log, N) && HdrOk(h, |mem|, N)
    ensures Inv(if h.op.Load? then RdIssue else WrFirst, Started(r, h), mem, log.(got := []), N)
  {
    FlitsBracket(h.size, N);
    NextLanes(0, N);
    hide SpecMem, SpecOut, Flits;
    assert log.out == Out0(log, N) + [];
  }

  /** A request is complete: the answered list grows by it. */
  lemma Complete(r: Regs, mem: seq<byte>, log: Log, out: seq<OutFlit>, N: nat)
    requires N > 0 && |mem| == |log.init| && AllOk(log.done, |mem|, N)
    requires |r.save| == |r.saveMask| == N && |r.line| == 2 * N
    requires RequestOk(Request(r.hdr, log.got), |mem|, N)
    requires mem == Effect(Mem0(log), Request(r.hdr, log.got))
    requires out == Out0(log, N) + Answer(Mem0(log), Request(r.hdr, log.got), N)
    ensures Inv(Ready, r, mem, log.(done := log.done + [Request(r.hdr, log.got)], out := out), N)
  {
    PushRequest(log.init, log.done, Request(r.hdr, log.got), N);
    hide SpecMem, SpecOut, Answer, Effect, RequestOk, AllOk;
  }

  lemma StoreDone(r: Regs, mem: seq<byte>, log: Log, N: nat)
    requires Inv(WrResp, r, mem, log, N)
    ensures Inv(Ready, r, mem, log.(done := log.done + [Request(r.hdr, log.got)], out := log.out + [RespHead(r, N)]), N)
  {
    hide SpecMem, SpecOut, Stored, HdrOk;
    Complete(r, mem, log, log.out + [RespHead(r, N)], N);
  }

  /** The header of a load's answer. */
  lemma LoadHead(r: Regs, mem: seq<byte>, log: Log, N: nat)
    requires Inv(RdHdr, r, mem, log, N)
    ensures Inv(RdPayload, r, mem, log.(out := log.out + [RespHead(r, N)]), N)
  {
    hide SpecMem, SpecOut, HdrOk, Line, Lanes, Flits;
    assert Partial(r.hdr, mem, 0, N) == [RespHead(r, N)];
    assert Out0(log, N) + [] == Out0(log, N);
  }

  lemma BodiesNext(h: Hdr, mem: seq<byte>, sent: nat, N: nat)
    requires N > 0
    ensures var a := h.addr + Lanes(sent, N);
      Partial(h, mem, sent + 1, N) == Partial(h, mem, sent, N) + [Body(FlitOf(Line(mem, a, N), a, N))]
  {
    hide Lanes, Line, FlitOf;
    var a := h.addr + Lanes(sent, N);
    Assoc([Head(AckOf(h, N))], Bodies(mem, h.addr, sent, N), [Body(FlitOf(Line(mem, a, N), a, N))]);
  }

  lemma SameLine(mem: seq<byte>, a: nat, N: nat)
    requires N > 0
    ensures LineNo(a + N, N) == LineNo(a, N) ==> Line(mem, a + N, N) == Line(mem, a, N)
  {
    NextFlit(a, N);
    hide LineNo, Blk;
  }

  function SentOne(r: Regs, N: nat): Regs {
    r.(sent := (r.sent + 1) % COUNTS)
  }

  /** A data flit of a load's answer, not the last: the line register still fits
      exactly when the address stays within the line. */
  lemma LoadBody(r: Regs, mem: seq<byte>, log: Log, N: nat)
    requires Inv(RdPayload, r, mem, log, N) && r.sent + 1 < r.respLen
    ensures Inv(if LineNo(r.addr + N, N) != LineNo(r.addr, N) then RdIssue else RdPayload,
                SentOne(r, N).(addr := r.addr + N), mem,
                log.(out := log.out + [Body(FlitOf(r.line, r.addr, N))]), N)
  {
    hide SpecMem, SpecOut, HdrOk, Line, FlitOf, LineNo, Partial, Flits, Lanes;
    LoadFacts(RdPayload, r, mem, log, N);
    NextLanes(r.sent, N);
    SameLine(mem, r.addr, N);
    BodiesNext(r.hdr, mem, r.sent, N);
    Assoc(Out0(log, N), Partial(r.hdr, mem, r.sent, N), [Body(FlitOf(r.line, r.addr, N))]);
  }

  lemma LoadDone(r: Regs, mem: seq<byte>, log: Log, N: nat)
    requires Inv(RdPayload, r, mem, log, N) && r.sent + 1 == r.respLen
    ensures Inv(Ready, SentOne(r, N), mem,
      log.(done := log.done + [Request(r.hdr, log.got)], out := log.out + [Body(FlitOf(r.line, r.addr, N))]), N)
  {
    BodiesNext(r.hdr, mem, r.sent, N);
    hide SpecMem, SpecOut, HdrOk, Line, Lanes, Flits, FlitOf;
    var b := Body(FlitOf(r.line, r.addr, N));
    Assoc(Out0(log, N), Partial(r.hdr, mem, r.sent, N), [b]);
    Complete(SentOne(r, N), mem, log, log.out + [b], N);
  }

  /** A payload flit of a store. */
  lemma StoreFlit(state: State, r: Regs, mem: seq<byte>, log: Log, flit: seq<byte>, N: nat)
    requires Inv(state, r, mem, log, N) && (state.WrFirst? || state.WrCopy?) && |flit| == N
    ensures var src := if state.WrFirst? then First else Copy;
      var r1 := Took(r, flit, state.WrFirst?, N);
      Inv(AfterFlit(r, r1), r1, Written(mem, r.addr, WriteData(src, r, flit, N), WriteMask(src, r, N), N),
          log.(got := log.got + flit), N)
  {
    hide SpecMem, SpecOut, HdrOk, WriteData, WriteMask, Written, LastRequestFlit, Stored, FlitMask, Marks, Underway;
    FlitMaskMeaning(r, |mem|, N);
    Numbers(r, Mem0(log), N);
    var src := if state.WrFirst? then First else Copy;
    var r1 := Took(r, flit, state.WrFirst?, N);
    var mem1 := Written(mem, r.addr, WriteData(src, r, flit, N), WriteMask(src, r, N), N);
    if state.WrFirst? {
      NextLanes(0, N);
      assert log.got == [];
      TakeFirst(r, flit, mem, N);
    } else {
      TakeCopy(r, log.got, flit, mem, Mem0(log), N);
    }
    hide Storing, Lanes;
    if r1.flits == r1.hdr.msgLen && r1.left == 0 {
      NothingLeft(r1, log.got + flit, mem1, Mem0(log), N);
    }
  }

  /** The control decision after a payload flit, on the registers before and after. */
  function AfterFlit(r: Regs, r1: Regs): State {
    if LastRequestFlit(r) then (if r1.left == 0 then WrResp else WrDrain) else WrCopy
  }

  /** Whether the handshakes that a state waits for are there. */
  predicate Unstalled(state: State, inVal: bool, memRdy: bool, rdVal: bool, outRdy: bool) {
    match state
    case Ready => inVal
    case RdIssue | WrDrain => memRdy
    case RdWait => rdVal
    case WrFirst | WrCopy => inVal && memRdy
    case RdHdr | RdPayload | WrResp => outRdy
  }

  /** The number of unstalled cycles a request can still take. */
  function Rank(state: State, r: Regs, N: nat): int
    requires N > 0
  {
    match state
    case Ready => 0
    case RdIssue => 4 * (Flits(r.hdr.size, N) - r.sent)
    case RdWait => 4 * (Flits(r.hdr.size, N) - r.sent) - 1
    case RdHdr => 4 * (Flits(r.hdr.size, N) - r.sent) - 2
    case RdPayload => 4 * (Flits(r.hdr.size, N) - r.sent) - 3
    case WrFirst | WrCopy => r.hdr.msgLen - r.flits + 2
    case WrDrain => 2
    case WrResp => 1
  }

  lemma RankPositive(state: State, r: Regs, mem: seq<byte>, log: Log, N: nat)
    requires Inv(state, r, mem, log, N)
    ensures Rank(state, r, N) >= 0
    ensures Rank(state, r, N) == 0 <==> state == Ready
  {
  }

  class Controller {
    const N: nat
    var state: State
    var r: Regs
    var mem: seq<byte>
    ghost var log: Log

    ghost predicate Valid()
      reads this
    {
      Inv(state, r, mem, log, N)
    }

    constructor (N: nat, r: Regs, mem: seq<byte>)
      requires N > 0 && |r.save| == |r.saveMask| == N && |r.line| == 2 * N
      ensures Valid() && this.N == N && this.mem == mem && state == Ready && log == Log(mem, [], [], [])
    {
      this.N, this.state, this.r, this.mem := N, Ready, r, mem;
      this.log := Log(mem, [], [], []);
    }

    /** READY: wait for a request header. */
    method Accept(inVal: bool, h: Hdr)
      requires Valid() && state == Ready && (inVal ==> HdrOk(h, |mem|, N))
      modifies this
      ensures Valid() && mem == old(mem)
      ensures log == if inVal then old(log).(got := []) else old(log)
      ensures r == if inVal then Started(old(r), h) else old(r)
      ensures state == if inVal then (if h.op.Load? then RdIssue else WrFirst) else Ready
    {
      hide Inv;
      if inVal {
        Begin(r, mem, log, h, N);
        r := Started(r, h);
        state := if h.op.Load? then RdIssue else WrFirst;
        log := log.(got := []);
      }
    }

    /** RD_OP_ISSUE and RD_OP_WAIT: fetch the line; `rdVal` brings the line's data. */
    method Fetch(memRdy: bool, rdVal: bool)
      requires Valid() && (state == RdIssue || state == RdWait)
      modifies this
      ensures Valid() && mem == old(mem) && log == old(log) && r.hdr == old(r.hdr) && r.sent == old(r.sent)
      ensures state == match old(state)
        case RdIssue => if memRdy then RdWait else RdIssue
        case _ => if rdVal then (if r.sent == 0 then RdHdr else RdPayload) else RdWait
    {
      FetchKeeps(state, r, mem, log, N);
      hide Inv;
      if state == RdIssue {
        r := r.(respLen := Flits(r.hdr.size, N));
        if memRdy {
          state := RdWait;
        }
      } else if rdVal {
        var first := r.addr == r.hdr.addr;
        r := r.(line := Line(mem, r.addr, N));
        state := if first then RdHdr else RdPayload;
      }
    }

    /** RD_HDR_FLIT and RD_PAYLOAD_RESP: send the answer of a load. */
    method Reply(outRdy: bool) returns (out: OutFlit)
      requires Valid() && (state == RdHdr || state == RdPayload)
      modifies this
      ensures Valid() && mem == old(mem)
      ensures out == if old(state) == RdHdr then RespHead(old(r), N) else Body(FlitOf(old(r).line, old(r).addr, N))
      ensures log.init == old(log.init) && log.got == old(log.got) && r.hdr == old(r.hdr)
      ensures log.out == old(log.out) + Maybe(outRdy, out)
      ensures log.done == old(log.done) + Maybe(state == Ready, Request(old(r.hdr), old(log.got)))
      ensures old(state) == RdHdr ==> state == (if outRdy then RdPayload else RdHdr) && r == old(r)
      ensures old(state) == RdPayload && !outRdy ==> state == RdPayload && r == old(r)
      ensures old(state) == RdPayload && outRdy ==>
        && r.sent == old(r.sent) + 1
        && (if r.sent == Flits(r.hdr.size, N) then state == Ready else state == RdIssue || state == RdPayload)
    {
      hide Inv, FlitOf, RespHead, LineNo, Flits;
      LoadFacts(state, r, mem, log, N);
      if state == RdHdr {
        out := RespHead(r, N);
        if outRdy {
          LoadHead(r, mem, log, N);
          state := RdPayload;
          log := log.(out := log.out + [out]);
        }
      } else {
        out := Body(FlitOf(r.line, r.addr, N));
        if outRdy {
          var last := r.sent == (r.respLen + (COUNTS - 1)) % COUNTS;
          if last {
            LoadDone(r, mem, log, N);
              state := Ready;
            r := SentOne(r, N);
            log := log.(done := log.done + [Request(r.hdr, log.got)], out := log.out + [out]);
          } else {
            LoadBody(r, mem, log, N);
              state := if LineNo(r.addr + N, N) != LineNo(r.addr, N) then RdIssue else RdPayload;
            r := SentOne(r, N).(addr := r.addr + N);
            log := log.(out := log.out + [out]);
          }
        }
      }
    }

    /** WR_FIRST_DATA and WR_DATA_COPY: each payload flit becomes one line write. */
    method Copy(inVal: bool, flit: seq<byte>, memRdy: bool)
      requires Valid() && (state == WrFirst || state == WrCopy) && |flit| == N
      modifies this
      ensures Valid()
      ensures !(inVal && memRdy) ==> mem == old(mem) && state == old(state) && log == old(log)
      ensures !(inVal && memRdy) ==> r.hdr == old(r.hdr) && r.flits == old(r.flits)
      ensures inVal && memRdy ==> log == old(log).(got := old(log).got + flit)
      ensures inVal && memRdy ==> r.hdr == old(r.hdr) && r.flits == old(r.flits) + 1
      ensures inVal && memRdy ==>
        if r.flits == r.hdr.msgLen then state == WrDrain || state == WrResp else state == WrCopy
    {
      hide Inv, Took, Written, WriteData, WriteMask, AfterFlit, LastRequestFlit, HdrOk;
      StoreFacts(state, r, mem, log, N);
      if inVal && memRdy {
        var src := if state == WrFirst then Source.First else Source.Copy;
        StoreFlit(state, r, mem, log, flit, N);
        var r1 := Took(r, flit, state == WrFirst, N);
        var mem1 := Written(mem, r.addr, WriteData(src, r, flit, N), WriteMask(src, r, N), N);
        TookFacts(r, flit, state == WrFirst, N);
        state, r, mem := AfterFlit(r, r1), r1, mem1;
        log := log.(got := log.got + flit);
      }
    }

    /** WR_DATA_DRAIN and WR_RESP: the last partial write, then the acknowledgement. */
    method Finish(flit: seq<byte>, memRdy: bool, outRdy: bool) returns (out: OutFlit)
      requires Valid() && (state == WrDrain || state == WrResp) && |flit| == N
      modifies this
      ensures Valid() && r == old(r) && out == RespHead(r, N)
      ensures old(state) == WrDrain ==> state == (if memRdy then WrResp else WrDrain) && log == old(log)
      ensures old(state) == WrDrain && !memRdy ==> mem == old(mem)
      ensures old(state) == WrResp ==> state == (if outRdy then Ready else WrResp) && mem == old(mem)
      ensures old(state) == WrResp ==> log == old(log).(
        done := old(log).done + Maybe(outRdy, Request(r.hdr, old(log).got)), out := old(log).out + Maybe(outRdy, out))
    {
      hide Inv, Written, WriteData, WriteMask, RespHead;
      DrainStep(state, r, mem, log, flit, N);
      out := RespHead(r, N);
      if state == WrDrain {
        if memRdy {
          mem := Written(mem, r.addr, WriteData(Drain, r, flit, N), WriteMask(Drain, r, N), N);
          state := WrResp;
        }
      } else if outRdy {
        StoreDone(r, mem, log, N);
        state := Ready;
        log := log.(done := log.done + [Request(r.hdr, log.got)], out := log.out + [out]);
      } else {
        assert log == log.(done := log.done + [], out := log.out + []);
      }
    }

    /** One clock edge. `inVal`/`flit` drive the request bus, `memRdy` and `rdVal` come
        from the memory and `outRdy` from the response bus. */
    method Step(inVal: bool, flit: Flit, memRdy: bool, rdVal: bool, outRdy: bool)
      returns (inRdy: bool, outVal: bool, out: OutFlit)
      requires Valid() && |flit.data| == N
      requires state == Ready && inVal ==> HdrOk(flit.hdr, |mem|, N)
      modifies this
      ensures Valid()
      // the handshake signals
      ensures inRdy == (old(state) == Ready || ((old(state) == WrFirst || old(state) == WrCopy) && memRdy))
      ensures outVal == (old(state) in {RdHdr, RdPayload, WrResp})
      // the histories
      ensures log.init == old(log.init)
      ensures log.out == old(log.out) + Maybe(outVal && outRdy, out)
      ensures log.got == if inVal && inRdy then (if old(state) == Ready then [] else old(log.got) + flit.data) else old(log.got)
      ensures log.done == old(log.done) + Maybe(old(state) != Ready && state == Ready, Request(old(r.hdr), old(log.got)))
      ensures r.hdr == if old(state) == Ready && inVal then flit.hdr else old(r.hdr)
      // the response bus holds its flit until it is taken
      ensures outVal && !outRdy ==> state == old(state) && r == old(r)
      // progress
      ensures Unstalled(old(state), inVal, memRdy, rdVal, outRdy) && old(state) != Ready ==>
        Rank(state, r, N) < Rank(old(state), old(r), N)
      ensures !Unstalled(old(state), inVal, memRdy, rdVal, outRdy) ==>
        state == old(state) && mem == old(mem) && Rank(state, r, N) == Rank(old(state), old(r), N)
    {
      hide Inv, RespHead, HdrOk, FlitOf, Flits, Rank;
      out := Head(Ack(Load, 0, 0, 0));
      inRdy := state == Ready || ((state == WrFirst || state == WrCopy) && memRdy);
      outVal := state in {RdHdr, RdPayload, WrResp};
      if state == Ready {
        Accept(inVal, flit.hdr);
      } else if state in {RdIssue, RdWait, RdHdr, RdPayload} {
        out := LoadStep(memRdy, rdVal, outRdy);
      } else {
        out := StoreStep(inVal, flit.data, memRdy, outRdy);
      }
    }

    /** One clock edge of a load. */
    method LoadStep(memRdy: bool, rdVal: bool, outRdy: bool) returns (out: OutFlit)
      requires Valid() && state in {RdIssue, RdWait, RdHdr, RdPayload}
      modifies this
      ensures Valid() && mem == old(mem) && r.hdr == old(r.hdr)
      ensures log.init == old(log.init) && log.got == old(log.got)
      ensures log.out == old(log.out) + Maybe((old(state) == RdHdr || old(state) == RdPayload) && outRdy, out)
      ensures log.done == old(log.done) + Maybe(state == Ready, Request(old(r.hdr), old(log.got)))
      ensures (old(state) == RdHdr || old(state) == RdPayload) && !outRdy ==> state == old(state) && r == old(r)
      ensures Unstalled(old(state), false, memRdy, rdVal, outRdy) ==> Rank(state, r, N) < Rank(old(state), old(r), N)
      ensures !Unstalled(old(state), false, memRdy, rdVal, outRdy) ==>
        state == old(state) && Rank(state, r, N) == Rank(old(state), old(r), N)
    {
      hide Inv, RespHead, FlitOf, Flits;
      RankPositive(state, r, mem, log, N);
      out := Head(Ack(Load, 0, 0, 0));
      if state == RdIssue || state == RdWait {
        Fetch(memRdy, rdVal);
      } else {
        out := Reply(outRdy);
      }
    }

    /** One clock edge of a store. */
    method StoreStep(inVal: bool, flit: seq<byte>, memRdy: bool, outRdy: bool) returns (out: OutFlit)
      requires Valid() && state in {WrFirst, WrCopy, WrDrain, WrResp} && |flit| == N
      modifies this
      ensures Valid() && r.hdr == old(r.hdr) && log.init == old(log.init)
      ensures log.out == old(log.out) + Maybe(old(state) == WrResp && outRdy, out)
      ensures log.got == old(log.got) + if old(state) in {WrFirst, WrCopy} && inVal && memRdy then flit else []
      ensures log.done == old(log.done) + Maybe(state == Ready, Request(old(r.hdr), old(log.got)))
      ensures old(state) == WrResp && !outRdy ==> state == WrResp && r == old(r)
      ensures Unstalled(old(state), inVal, memRdy, false, outRdy) ==> Rank(state, r, N) < Rank(old(state), old(r), N)
      ensures !Unstalled(old(state), inVal, memRdy, false, outRdy) ==>
        state == old(state) && mem == old(mem) && Rank(state, r, N) == Rank(old(state), old(r), N)
    {
      hide Inv, RespHead;
      RankPositive(state, r, mem, log, N);
      out := Head(Ack(Store, 0, 0, 0));
      if state == WrFirst || state == WrCopy {
        Copy(inVal, flit, memRdy);
      } else {
        out := Finish(flit, memRdy, outRdy);
      }
    }
  }

  lemma DrainStep(state: State, r: Regs, mem: seq<byte>, log: Log, flit: seq<byte>, N: nat)
    requires Inv(state, r, mem, log, N) && (state.WrDrain? || state.WrResp?) && |flit| == N
    ensures N > 0 && |r.save| == |r.saveMask| == N
    ensures state.WrDrain? ==>
      Inv(WrResp, r, Written(mem, r.addr, WriteData(Drain, r, flit, N), WriteMask(Drain, r, N), N), log, N)
  {
    hide SpecMem, SpecOut, HdrOk, WriteData, WriteMask, Written, Storing, Finished;
    if state.WrDrain? {
      Drained(r, log.got, flit, mem, Mem0(log), N);
    }
  }

  lemma TookFacts(r: Regs, flit: seq<byte>, first: bool, N: nat)
    requires N > 0
    ensures var r1 := Took(r, flit, first, N);
      && r1.hdr == r.hdr && r1.flits == (r.flits + 1) % COUNTS
      && if LastRequestFlit(r) then AfterFlit(r, r1) in {WrResp, WrDrain} else AfterFlit(r, r1) == WrCopy
  {
  }

  /** Fetching a line keeps the invariant. */
  lemma FetchKeeps(state: State, r: Regs, mem: seq<byte>, log: Log, N: nat)
    requires Inv(state, r, mem, log, N) && (state.RdIssue? || state.RdWait?)
    ensures state.RdIssue? ==> Inv(RdIssue, r.(respLen := Flits(r.hdr.size, N)), mem, log, N)
    ensures state.RdIssue? ==> Inv(RdWait, r.(respLen := Flits(r.hdr.size, N)), mem, log, N)
    ensures state.RdWait? ==>
      Inv(if r.addr == r.hdr.addr then RdHdr else RdPayload, r.(line := Line(mem, r.addr, N)), mem, log, N)
    ensures r.addr == r.hdr.addr <==> r.sent == 0
  {
    NextLanes(0, N);
    if r.sent > 0 {
      LanesMonotone(1, r.sent, N);
    }
    hide SpecMem, SpecOut, HdrOk, Line, Lanes, Flits, Partial;
  }

  lemma LoadFacts(state: State, r: Regs, mem: seq<byte>, log: Log, N: nat)
    requires Inv(state, r, mem, log, N) && (state.RdHdr? || state.RdPayload?)
    ensures r.respLen == Flits(r.hdr.size, N) && r.sent < r.respLen < COUNTS
    ensures r.sent == (r.respLen + (COUNTS - 1)) % COUNTS <==> r.sent + 1 == r.respLen
    ensures (r.sent + 1) % COUNTS == r.sent + 1
    ensures N > 0 && |r.line| == 2 * N
  {
    hide SpecMem, SpecOut, Flits, Lanes, Line, Partial;
  }

  lemma StoreFacts(state: State, r: Regs, mem: seq<byte>, log: Log, N: nat)
    requires Inv(state, r, mem, log, N) && (state.WrFirst? || state.WrCopy?)
    ensures LastRequestFlit(r) <==> r.flits + 1 == r.hdr.msgLen
    ensures (r.flits + 1) % COUNTS == r.flits + 1
    ensures N > 0 && |r.save| == |r.saveMask| == N
  {
    hide SpecMem, SpecOut, Flits, Lanes, Underway;
  }

  /** When the store acknowledgement is offered, memory holds the payload at
      [addr, addr + size) and every other byte is as the earlier requests left it. */
  lemma AckMeansStored(c: Controller, i: nat)
    requires c.Valid() && c.state == WrResp && i < |c.mem|
    ensures var h, p := c.r.hdr, c.log.got;
      && h.size <= |p| && h.addr + h.size <= |c.mem|
      && c.mem[i] == if h.addr <= i < h.addr + h.size then p[i - h.addr] else SpecMem(c.log.init, c.log.done)[i]
  {
    hide SpecMem, SpecOut;
  }

  /** Between requests, memory and response history are those of the plain memory. */
  lemma Refines(c: Controller)
    requires c.Valid() && c.state == Ready
    ensures c.mem == SpecMem(c.log.init, c.log.done)
    ensures c.log.out == SpecOut(c.log.init, c.log.done, c.N)
  {
  }
}
