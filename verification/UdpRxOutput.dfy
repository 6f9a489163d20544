/** The controller behind the UDP receive checksum engine: it drops frames whose
    checksum is wrong, and otherwise delivers the addresses and UDP header on one
    interface and the payload on another. */
module UdpRxOutput {
  import opened Streams
  import opened Verdicts

  datatype State = Ready | Output | OutputLast | Dropping | WaitFin
  datatype HdrState = Waiting | HdrOutput | HdrWaitFin

  /** The length field of the UDP header behind the pseudo-header. */
  function UdpLen(s: seq<byte>): nat
    requires BLOCK <= |s|
  {
    Field16(s, 16)
  }

  predicate Fits(got: seq<byte>, b: Beat, B: nat)
    requires BLOCK < B && OnBus(b, B)
  {
    && 8 <= UdpLen(got + b.data)
    && if b.last then |got| + B - b.pad == 12 + UdpLen(got + b.data)
       else |got| + B < 12 + UdpLen(got + b.data)
  }

  /** A datagram of twelve zero bytes in one beat, its checksum field as given. */
  function Single(field: byte): (b: Beat) {
    Beat(seq(32, i => if i == 9 || i == 17 then 20 else if i == 11 then 17 else if i == 19 then field else 0), true, 0)
  }

  lemma SingleFits(field: byte)
    ensures OnBus(Single(field), 32) && Fits([], Single(field), 32) && (FieldClear(Single(field).data) <==> field == 0)
  {
    var b := Single(field);
    assert [] + b.data == b.data;
    assert b.data[17] == 20 && b.data[16] == 0;
    assert Field16(b.data, 16) == 20;
  }

  /** A pair of frames as the controller may be given them: a bad frame of one beat, and the
      good frame that is lost with it. */
  lemma GoodFrameLost()
    ensures var f, g := [Single(1)], [Single(0)];
      && OnBus(f[0], 32) && Fits([], f[0], 32) && OnBus(g[0], 32) && Fits([], g[0], 32)
      && !Passes(Udp, f) && Passes(Udp, g)
      && GoodFrames(Udp, [f, g]) == [Payload(g)] && Judge(Udp, [f, g]).good == []
  {
    hide Single, Fits, FieldClear, Payload, Judge, GoodFrames;
    SingleFits(0);
    SingleFits(1);
    PairLost(Udp, [Single(1)], [Single(0)]);
  }

  /** The payload frames and header blocks of the accepted frames. An empty payload
      yields no data frame. */
  function Bodies(gs: seq<seq<byte>>): seq<seq<byte>> {
    if gs == [] then []
    else
      var g := gs[|gs| - 1];
      Bodies(gs[..|gs| - 1]) + if BLOCK < |g| then [g[BLOCK..]] else []
  }

  function Blocks(gs: seq<seq<byte>>): seq<seq<byte>> {
    if gs == [] then []
    else
      var g := gs[|gs| - 1];
      Blocks(gs[..|gs| - 1]) + [if BLOCK <= |g| then g[..BLOCK] else []]
  }

  lemma PushGood(gs: seq<seq<byte>>, block: seq<byte>, body: seq<byte>)
    requires |block| == BLOCK
    ensures Blocks(gs + [block + body]) == Blocks(gs) + [block]
    ensures Bodies(gs + [block + body]) == Bodies(gs) + Maybe(body != [], body)
  {
    assert (gs + [block + body])[..|gs|] == gs;
    assert (block + body)[..BLOCK] == block && (block + body)[BLOCK..] == body;
  }

  datatype Trace = Trace(inp: seq<Beat>, out: seq<Beat>)

  /** `done` are the accepted frames both machines have finished with. */
  ghost predicate Settled(t: Trace, done: seq<seq<byte>>, B: nat) {
    AllClean(t.out, B) && Frames(t.out) == Bodies(done)
  }

  ghost predicate Idle(t: Trace, done: seq<seq<byte>>, B: nat) {
    && Settled(t, done, B)
    && Open(t.inp) == [] && Open(t.out) == []
    && Judge(Udp, Closed(t.inp)) == Verdict(done, false)
  }

  ghost predicate Streaming(t: Trace, done: seq<seq<byte>>, B: nat, block: seq<byte>, hold: seq<byte>, left: nat) {
    && Settled(t, done, B)
    && Judge(Udp, Closed(t.inp)) == Verdict(done, false) && Passes(Udp, Open(t.inp))
    && |block| == BLOCK && |hold| + BLOCK == B
    && Pending(t.inp) == (block + Pending(t.out)) + hold
    && left + |Pending(t.out)| + 8 == UdpLen(block)
    && |Pending(t.inp)| < 12 + UdpLen(block)
  }

  ghost predicate Draining(t: Trace, done: seq<seq<byte>>, B: nat, block: seq<byte>, rest: seq<byte>) {
    && Settled(t, done, B)
    && |block| == BLOCK
    && Judge(Udp, Closed(t.inp)) == Verdict(done + [block + (Pending(t.out) + rest)], false) && Open(t.inp) == []
  }

  ghost predicate Finished(t: Trace, done: seq<seq<byte>>, B: nat, block: seq<byte>, body: seq<byte>) {
    && AllClean(t.out, B)
    && |block| == BLOCK
    && Open(t.inp) == [] && Open(t.out) == []
    && Judge(Udp, Closed(t.inp)) == Verdict(done + [block + body], false)
    && Frames(t.out) == Bodies(done) + Maybe(body != [], body)
  }

  ghost predicate Discarding(t: Trace, done: seq<seq<byte>>, B: nat) {
    && Settled(t, done, B) && Open(t.out) == []
    && Judge(Udp, Closed(t.inp)).good == done
    && (Judge(Udp, Closed(t.inp)).skip || (Open(t.inp) != [] && !Passes(Udp, Open(t.inp))))
  }

  lemma NothingOpen(t: Trace, done: seq<seq<byte>>, B: nat)
    requires Idle(t, done, B)
    ensures Pending(t.inp) == [] && Pending(t.out) == []
  {
  }

  lemma TakeLong(t: Trace, done: seq<seq<byte>>, B: nat, b: Beat)
    requires Idle(t, done, B)
    requires BLOCK < B && OnBus(b, B) && FieldClear(b.data) && Fits([], b, B) && !b.last
    ensures UdpLen(b.data) - 8 > B - BLOCK
    ensures Streaming(t.(inp := t.inp + [b]), done, B, b.data[..BLOCK], b.data[BLOCK..], UdpLen(b.data) - 8)
  {
    hide Frames, Closed, Open, Payload, Pending, Bodies, Judge, Passes, FieldClear;
    NothingOpen(t, done, B);
    Push(t.inp, b);
    OpenFirst(Udp, Open(t.inp), b);
    assert [] + b.data == b.data;
    assert b.data == (b.data[..BLOCK] + []) + b.data[BLOCK..];
    assert UdpLen(b.data[..BLOCK]) == UdpLen(b.data);
  }

  lemma TakeShort(t: Trace, done: seq<seq<byte>>, B: nat, b: Beat)
    requires Idle(t, done, B)
    requires BLOCK < B && OnBus(b, B) && FieldClear(b.data) && Fits([], b, B) && b.last
    ensures 0 <= UdpLen(b.data) - 8 <= B - BLOCK
    ensures Draining(t.(inp := t.inp + [b]), done, B, b.data[..BLOCK], b.data[BLOCK..][..UdpLen(b.data) - 8])
    ensures UdpLen(b.data) == 8 ==> Finished(t.(inp := t.inp + [b]), done, B, b.data[..BLOCK], [])
  {
    hide Frames, Closed, Open, Payload, Pending, Bodies, Judge, Passes, FieldClear, UdpLen;
    NothingOpen(t, done, B);
    Push(t.inp, b);
    OpenFirst(Udp, Open(t.inp), b);
    PushJudge(Udp, Closed(t.inp), Open(t.inp) + [b]);
    PushPayload(Open(t.inp), b);
    assert Payload(Open(t.inp)) == [] by { assert Open(t.inp) == []; NoPayload(); }
    ShortBytes(b, B);
  }

  lemma ShortBytes(b: Beat, B: nat)
    requires BLOCK < B && OnBus(b, B) && Fits([], b, B) && b.last
    ensures 0 <= UdpLen(b.data) - 8 <= B - BLOCK
    ensures var rest := b.data[BLOCK..][..UdpLen(b.data) - 8];
      [] + Bytes(b) == b.data[..BLOCK] + ([] + rest) && (UdpLen(b.data) == 8 ==> rest == [] && [] + rest == [])
  {
    hide UdpLen;
    assert [] + b.data == b.data;
  }

  lemma NoPayload()
    ensures Payload([]) == []
  {
  }

  lemma LenPrefix(block: seq<byte>, sent: seq<byte>, hold: seq<byte>, data: seq<byte>)
    requires |block| == BLOCK
    ensures UdpLen(((block + sent) + hold) + data) == UdpLen(block)
  {
  }

  lemma PassMiddle(t: Trace, done: seq<seq<byte>>, B: nat, block: seq<byte>, hold: seq<byte>, left: nat, b: Beat)
    requires Streaming(t, done, B, block, hold, left)
    requires BLOCK < B && OnBus(b, B) && Fits(Pending(t.inp), b, B) && !b.last
    ensures B < left
    ensures Streaming(t.(inp := t.inp + [b], out := t.out + [Beat(hold + b.data[..BLOCK], false, 0)]),
                      done, B, block, b.data[BLOCK..], left - B)
  {
    hide Frames, Closed, Open, Payload, Pending, Bodies, Judge, Passes, UdpLen;
    assert Open(t.inp) != [] by { StillOpen(t, done, B, block, hold, left); }
    Push(t.inp, b);
    OpenFirst(Udp, Open(t.inp), b);
    Push(t.out, Beat(hold + b.data[..BLOCK], false, 0));
    LenPrefix(block, Pending(t.out), hold, b.data);
    Realign(block + Pending(t.out), hold, Pending(t.inp), b.data, BLOCK);
    Assoc(block, Pending(t.out), hold + b.data[..BLOCK]);
  }

  lemma StillOpen(t: Trace, done: seq<seq<byte>>, B: nat, block: seq<byte>, hold: seq<byte>, left: nat)
    requires Streaming(t, done, B, block, hold, left)
    ensures Open(t.inp) != []
  {
  }

  lemma PassFit(t: Trace, done: seq<seq<byte>>, B: nat, block: seq<byte>, hold: seq<byte>, left: nat, b: Beat)
    requires Streaming(t, done, B, block, hold, left)
    requires BLOCK < B && OnBus(b, B) && Fits(Pending(t.inp), b, B) && b.last
    requires left <= B
    ensures 0 < left
    ensures Finished(t.(inp := t.inp + [b], out := t.out + [Beat(hold + b.data[..BLOCK], true, B - left)]),
                     done, B, block, Pending(t.out) + (hold + b.data[..BLOCK])[..left])
  {
    hide Frames, Closed, Open, Payload, Pending, Bodies, Judge, Passes, UdpLen;
    var sent, emitted := Pending(t.out), Beat(hold + b.data[..BLOCK], true, B - left);
    assert Open(t.inp) != [] by { StillOpen(t, done, B, block, hold, left); }
    Push(t.inp, b);
    OpenFirst(Udp, Open(t.inp), b);
    PushJudge(Udp, Closed(t.inp), Open(t.inp) + [b]);
    PushPayload(Open(t.inp), b);
    assert Payload(Open(t.inp)) == Pending(t.inp) by { PendingIs(t.inp); }
    LenPrefix(block, sent, hold, b.data);
    assert left == |hold| + (B - b.pad);
    Push(t.out, emitted);
    RealignFit(block + sent, hold, Pending(t.inp), b.data, BLOCK, B - b.pad);
    assert Bytes(emitted) == (hold + b.data[..BLOCK])[..left];
    Assoc(block, sent, Bytes(emitted));
  }

  lemma PendingIs(h: seq<Beat>)
    ensures Pending(h) == Payload(Open(h))
  {
  }

  lemma PassSpill(t: Trace, done: seq<seq<byte>>, B: nat, block: seq<byte>, hold: seq<byte>, left: nat, b: Beat)
    requires Streaming(t, done, B, block, hold, left)
    requires BLOCK < B && OnBus(b, B) && Fits(Pending(t.inp), b, B) && b.last
    requires B < left
    ensures left - B <= B - BLOCK
    ensures Draining(t.(inp := t.inp + [b], out := t.out + [Beat(hold + b.data[..BLOCK], false, 0)]),
                     done, B, block, b.data[BLOCK..][..left - B])
  {
    hide Frames, Closed, Open, Payload, Pending, Bodies, Judge, Passes, UdpLen;
    var sent, emitted := Pending(t.out), Beat(hold + b.data[..BLOCK], false, 0);
    assert Open(t.inp) != [] by { StillOpen(t, done, B, block, hold, left); }
    Push(t.inp, b);
    OpenFirst(Udp, Open(t.inp), b);
    PushJudge(Udp, Closed(t.inp), Open(t.inp) + [b]);
    PushPayload(Open(t.inp), b);
    assert Payload(Open(t.inp)) == Pending(t.inp) by { PendingIs(t.inp); }
    LenPrefix(block, sent, hold, b.data);
    assert left == |hold| + (B - b.pad);
    Push(t.out, emitted);
    RealignSpill(block + sent, hold, Pending(t.inp), b.data, BLOCK, B - b.pad);
    Assoc(block, sent, emitted.data);
    Assoc(block, sent + emitted.data, b.data[BLOCK..][..left - B]);
  }

  lemma Drain(t: Trace, done: seq<seq<byte>>, B: nat, block: seq<byte>, hold: seq<byte>, filler: seq<byte>, left: nat)
    requires |hold| + |filler| == B && 0 < left <= |hold|
    requires Draining(t, done, B, block, hold[..left])
    ensures Finished(t.(out := t.out + [Beat(hold + filler, true, B - left)]), done, B, block, Pending(t.out) + hold[..left])
  {
    hide Frames, Closed, Open, Payload, Pending, Bodies, Judge;
    var emitted := Beat(hold + filler, true, B - left);
    Push(t.out, emitted);
    assert Bytes(emitted) == hold[..left];
  }

  lemma Finish(t: Trace, done: seq<seq<byte>>, B: nat, block: seq<byte>, body: seq<byte>)
    requires Finished(t, done, B, block, body)
    ensures Idle(t, done + [block + body], B)
    ensures Blocks(done + [block + body]) == Blocks(done) + [block]
  {
    hide Frames, Closed, Open, Bodies, Blocks, Judge;
    PushGood(done, block, body);
  }

  lemma Reject(t: Trace, done: seq<seq<byte>>, B: nat, b: Beat)
    requires Idle(t, done, B) && !FieldClear(b.data)
    ensures Discarding(t.(inp := t.inp + [b]), done, B)
  {
    hide Frames, Closed, Open, Bodies, Judge, Passes, FieldClear, Payload;
    Push(t.inp, b);
    OpenFirst(Udp, Open(t.inp), b);
    assert Open(t.inp) + [b] == [b];
    PushJudge(Udp, Closed(t.inp), [b]);
  }

  lemma DiscardMore(t: Trace, done: seq<seq<byte>>, B: nat, b: Beat)
    requires Discarding(t, done, B)
    ensures if b.last then Idle(t.(inp := t.inp + [b]), done, B) else Discarding(t.(inp := t.inp + [b]), done, B)
  {
    hide Frames, Closed, Open, Bodies, Judge, Passes, Payload;
    Push(t.inp, b);
    OpenFirst(Udp, Open(t.inp), b);
    PushJudge(Udp, Closed(t.inp), Open(t.inp) + [b]);
  }

  /** The header machine. */
  function NextHdr(h: HdrState, s: State, respVal: bool, matches: bool, hdrRdy: bool): HdrState {
    match h
    case Waiting => if s.Ready? && respVal then (if matches then HdrOutput else HdrWaitFin) else Waiting
    case HdrOutput => if hdrRdy then HdrWaitFin else HdrOutput
    case HdrWaitFin => if s.WaitFin? then Waiting else HdrWaitFin
  }

  /** Where a cycle can leave the data machine. */
  predicate Goes(s: State, s1: State, h: HdrState, respVal: bool, dataRdy: bool) {
    match s
    case Ready => if respVal then !s1.Ready? else s1.Ready?
    case Output => if respVal && dataRdy then !s1.Ready? && !s1.Dropping? else s1.Output?
    case OutputLast => s1 == if dataRdy then WaitFin else OutputLast
    case Dropping => if respVal then s1.Dropping? || s1.WaitFin? else s1.Dropping?
    case WaitFin => s1 == if h.HdrWaitFin? then Ready else WaitFin
  }

  /** The cycles both machines still need for the frame under way. */
  function Weight(s: State, h: HdrState): nat {
    (match s case Ready => 0 case Output => 3 case Dropping => 3 case OutputLast => 2 case WaitFin => 1)
    + (match h case Waiting => 0 case HdrOutput => 2 case HdrWaitFin => 1)
  }

  /** Only a beat that comes in adds work; a machine that can move does some. */
  lemma WeightFalls(s: State, s1: State, h: HdrState, respVal: bool, matches: bool, hdrRdy: bool, dataRdy: bool)
    requires Goes(s, s1, h, respVal, dataRdy) && (s.Ready? <==> h.Waiting?)
    ensures var took := respVal && (s.Ready? || s.Dropping? || (s.Output? && dataRdy));
      var w, w1 := Weight(s, h), Weight(s1, NextHdr(h, s, respVal, matches, hdrRdy));
      && w1 <= w + (if took then 5 else 0)
      && ((s.OutputLast? && dataRdy) || (h.HdrOutput? && hdrRdy) || (s.WaitFin? && h.HdrWaitFin?) ==> w1 < w)
  {
  }

  /** `good` says whether the frame being handled was accepted, `body` its payload. */
  datatype Log = Log(t: Trace, hdrs: seq<seq<byte>>, done: seq<seq<byte>>, good: bool, body: seq<byte>)

  datatype Regs = Regs(block: seq<byte>, hold: seq<byte>, left: nat)

  /** The data machine in each state. */
  ghost predicate DataOk(state: State, r: Regs, log: Log, B: nat) {
    && BLOCK < B && |r.block| == BLOCK && |r.hold| + BLOCK == B
    && match state
       case Ready => Idle(log.t, log.done, B)
       case Output => log.good && Streaming(log.t, log.done, B, r.block, r.hold, r.left)
       case OutputLast => log.good && 0 < r.left <= B - BLOCK && Draining(log.t, log.done, B, r.block, r.hold[..r.left])
       case Dropping => !log.good && Discarding(log.t, log.done, B)
       case WaitFin => if log.good then Finished(log.t, log.done, B, r.block, log.body) else Idle(log.t, log.done, B)
  }

  /** The header machine beside it. */
  ghost predicate HdrOk(state: State, h: HdrState, r: Regs, log: Log) {
    && (state.Ready? <==> h.Waiting?)
    && (!log.good ==> !h.HdrOutput?)
    && log.hdrs == Blocks(log.done) + Maybe(h.HdrWaitFin? && log.good, r.block)
  }

  /** READY, a frame whose checksum is right. */
  function TookRegs(b: Beat, B: nat): Regs
    requires BLOCK < B == |b.data| && 8 <= UdpLen(b.data)
  {
    Regs(b.data[..BLOCK], b.data[BLOCK..], UdpLen(b.data) - 8)
  }

  function TookState(r: Regs, B: nat): State {
    if r.left == 0 then WaitFin else if r.left + BLOCK <= B then OutputLast else Output
  }

  function Fed(log: Log, b: Beat): Log {
    log.(t := log.t.(inp := log.t.inp + [b]))
  }

  lemma TakeGood(r: Regs, log: Log, B: nat, b: Beat)
    requires DataOk(Ready, r, log, B) && OnBus(b, B) && FieldClear(b.data) && Fits(Pending(log.t.inp), b, B)
    ensures 8 <= UdpLen(b.data)
    ensures DataOk(TookState(TookRegs(b, B), B), TookRegs(b, B), Fed(log, b).(good := true, body := []), B)
  {
    hide Idle, Streaming, Draining, Finished, Discarding, FieldClear, Pending, UdpLen;
    NothingOpen(log.t, log.done, B);
    assert [] + b.data == b.data;
    if b.last {
      TakeShort(log.t, log.done, B, b);
    } else {
      TakeLong(log.t, log.done, B, b);
    }
    hide Fits;
  }

  /** DATA_OUTPUT. */
  function Emitted(r: Regs, b: Beat, B: nat): Beat
    requires |b.data| == B > BLOCK
  {
    var word := r.hold + b.data[..BLOCK];
    if b.last && r.left <= B then Beat(word, true, B - r.left) else Beat(word, false, 0)
  }

  function PassedState(r: Regs, b: Beat, B: nat): State {
    if !b.last then Output else if r.left <= B then WaitFin else OutputLast
  }

  function PassedRegs(r: Regs, b: Beat, B: nat): Regs
    requires |b.data| == B > BLOCK && (!(b.last && r.left <= B) ==> B <= r.left)
  {
    Regs(r.block, b.data[BLOCK..], if b.last && r.left <= B then r.left else r.left - B)
  }

  function PassedLog(r: Regs, log: Log, b: Beat, B: nat): Log
    requires |b.data| == B > BLOCK
  {
    var out := Emitted(r, b, B);
    log.(t := Trace(log.t.inp + [b], log.t.out + [out]), body := if out.last then Pending(log.t.out) + Bytes(out) else log.body)
  }

  lemma Pass(r: Regs, log: Log, B: nat, b: Beat)
    requires DataOk(Output, r, log, B) && OnBus(b, B) && Fits(Pending(log.t.inp), b, B)
    ensures 0 < r.left && (!(b.last && r.left <= B) ==> B <= r.left)
    ensures DataOk(PassedState(r, b, B), PassedRegs(r, b, B), PassedLog(r, log, b, B), B)
  {
    hide Idle, Streaming, Draining, Finished, Discarding, Pending, UdpLen;
    var word := r.hold + b.data[..BLOCK];
    if b.last && r.left <= B {
      PassFit(log.t, log.done, B, r.block, r.hold, r.left, b);
      assert Bytes(Beat(word, true, B - r.left)) == word[..r.left];
    } else if b.last {
      PassSpill(log.t, log.done, B, r.block, r.hold, r.left, b);
    } else {
      PassMiddle(log.t, log.done, B, r.block, r.hold, r.left, b);
    }
    hide Fits;
  }

  /** DATA_OUTPUT_LAST; the low bytes of the word are padding. */
  function Flushed(r: Regs, filler: seq<byte>, B: nat): Beat
    requires r.left <= B
  {
    Beat(r.hold + filler, true, B - r.left)
  }

  lemma Flush(r: Regs, log: Log, B: nat, filler: seq<byte>)
    requires DataOk(OutputLast, r, log, B) && |filler| == BLOCK
    ensures 0 < r.left <= |r.hold| && |r.hold| + BLOCK == B
    ensures DataOk(WaitFin, r, log.(t := log.t.(out := log.t.out + [Flushed(r, filler, B)]), body := Pending(log.t.out) + r.hold[..r.left]), B)
  {
    hide Idle, Streaming, Draining, Finished, Discarding, Pending;
    Drain(log.t, log.done, B, r.block, r.hold, filler, r.left);
  }

  /** A wrong checksum, and the beats after it. */
  lemma Drop(state: State, r: Regs, log: Log, B: nat, b: Beat)
    requires DataOk(state, r, log, B)
    ensures state.Ready? && !FieldClear(b.data) ==> DataOk(Dropping, r, Fed(log, b).(good := false), B)
    ensures state.Dropping? ==> DataOk(if b.last then WaitFin else Dropping, r, Fed(log, b), B)
  {
    hide Idle, Streaming, Draining, Finished, Discarding, FieldClear;
    if state.Ready? && !FieldClear(b.data) {
      Reject(log.t, log.done, B, b);
    }
    if state.Dropping? {
      DiscardMore(log.t, log.done, B, b);
    }
  }

  function Closing(r: Regs, log: Log): Log {
    if log.good then log.(done := log.done + [r.block + log.body]) else log
  }

  /** Both machines are done. */
  lemma Close(r: Regs, log: Log, B: nat)
    requires DataOk(WaitFin, r, log, B) && HdrOk(WaitFin, HdrWaitFin, r, log)
    ensures DataOk(Ready, r, Closing(r, log), B) && HdrOk(Ready, Waiting, r, Closing(r, log))
  {
    hide Idle, Streaming, Draining, Finished, Discarding, Blocks;
    if log.good {
      Finish(log.t, log.done, B, r.block, log.body);
    }
  }

  /** The header machine's move, while the data machine is inside a frame. */
  lemma HdrMoves(state: State, h: HdrState, r: Regs, log: Log, B: nat)
    requires HdrOk(state, h, r, log) && !state.Ready?
    ensures h.HdrOutput? ==> HdrOk(state, HdrWaitFin, r, log.(hdrs := log.hdrs + [r.block]))
  {
    hide Blocks;
  }

  lemma DataKeepsHdrs(state: State, r: Regs, log: Log, hdrs: seq<seq<byte>>, B: nat)
    requires DataOk(state, r, log, B)
    ensures DataOk(state, r, log.(hdrs := hdrs), B)
  {
    hide Idle, Streaming, Draining, Finished, Discarding;
  }

  class Receiver {
    const B: nat

    var state: State
    var hdrState: HdrState
    var regs: Regs

    ghost var log: Log

    ghost predicate Valid()
      reads this
    {
      DataOk(state, regs, log, B) && HdrOk(state, hdrState, regs, log)
    }

    constructor (busBytes: nat)
      requires BLOCK < busBytes
      ensures Valid() && B == busBytes
      ensures state == Ready && log == Log(Trace([], []), [], [], false, [])
    {
      B := busBytes;
      state, hdrState := Ready, Waiting;
      regs := Regs(seq(BLOCK, _ => 0), seq(busBytes - BLOCK, _ => 0), 0);
      log := Log(Trace([], []), [], [], false, []);
    }

    /** Whether the engine's output is read in this state. */
    predicate Reads(dataRdy: bool)
      reads this
    {
      state.Ready? || state.Dropping? || (state.Output? && dataRdy)
    }

    /** The data machine takes a beat. */
    method TakeBeat(beat: Beat)
      requires Valid() && OnBus(beat, B) && Reads(true) && BLOCK < B
      requires (state.Ready? && FieldClear(beat.data)) || state.Output? ==> Fits(Pending(log.t.inp), beat, B)
      modifies this
      ensures Valid() && !state.Ready?
      ensures old(state).Ready? ==> hdrState == if FieldClear(beat.data) then HdrOutput else HdrWaitFin
      ensures !old(state).Ready? ==> hdrState == old(hdrState) && regs.block == old(regs.block)
      ensures log.t.inp == old(log.t.inp) + [beat] && log.hdrs == old(log.hdrs)
      ensures log.t.out == old(log.t.out) + Maybe(old(state).Output?, Emitted(old(regs), beat, B))
      ensures Goes(old(state), state, old(hdrState), true, true)
    {
      hide DataOk, FieldClear, Fits, Pending, Blocks, UdpLen;
      if state.Ready? {
        if FieldClear(beat.data) {
          TakeGood(regs, log, B, beat);
          log := Fed(log, beat).(good := true, body := []);
          regs := TookRegs(beat, B);
          state, hdrState := TookState(regs, B), HdrOutput;
        } else {
          Drop(state, regs, log, B, beat);
          log := Fed(log, beat).(good := false);
          state, hdrState := Dropping, HdrWaitFin;
        }
      } else if state.Output? {
        Pass(regs, log, B, beat);
        log := PassedLog(regs, log, beat, B);
        state, regs := PassedState(regs, beat, B), PassedRegs(regs, beat, B);
      } else {
        Drop(state, regs, log, B, beat);
        log := Fed(log, beat);
        state := if beat.last then WaitFin else Dropping;
      }
    }

    /** The data machine's half of a clock edge. */
    method DataStep(respVal: bool, beat: Beat, dataRdy: bool) returns (emitted: Beat)
      requires Valid() && OnBus(beat, B) && !(state.WaitFin? && hdrState.HdrWaitFin?)
      requires respVal && ((state.Ready? && FieldClear(beat.data)) || (state.Output? && dataRdy)) ==>
        BLOCK < B && Fits(Pending(log.t.inp), beat, B)
      modifies this
      ensures Valid() && OnBus(emitted, B) && log.hdrs == old(log.hdrs)
      ensures old(state).Ready? && !respVal ==> state.Ready? && hdrState == old(hdrState)
      ensures old(state).Ready? && respVal ==> !state.Ready?
      ensures !old(state).Ready? ==> !state.Ready? && hdrState == old(hdrState) && regs.block == old(regs.block)
      ensures log.t.inp == old(log.t.inp) + Maybe(respVal && old(Reads(dataRdy)), beat)
      ensures log.t.out == old(log.t.out) + Maybe((old(state).OutputLast? || (old(state).Output? && respVal)) && dataRdy, emitted)
      ensures Goes(old(state), state, old(hdrState), respVal, dataRdy)
      ensures old(state).Ready? && respVal ==> hdrState == if FieldClear(beat.data) then HdrOutput else HdrWaitFin
    {
      hide DataOk, HdrOk, FieldClear, Fits, Pending;
      RegShapes(state, hdrState, regs, log, B);
      emitted := if state.Output? then Emitted(regs, beat, B) else Beat(regs.hold + beat.data[..BLOCK], false, 0);
      if respVal && Reads(dataRdy) {
        TakeBeat(beat);
      } else if state.OutputLast? {
        Flush(regs, log, B, beat.data[..BLOCK]);
        emitted := Flushed(regs, beat.data[..BLOCK], B);
        if dataRdy {
          FlushHdr(regs, log, hdrState);
          log := log.(t := log.t.(out := log.t.out + [emitted]), body := Pending(log.t.out) + regs.hold[..regs.left]);
          state := WaitFin;
        }
      }
    }

    /** One clock edge. `hdr` holds the pseudo-header and UDP header on offer. */
    method Step(respVal: bool, beat: Beat, hdrRdy: bool, dataRdy: bool)
      returns (respRdy: bool, hdrVal: bool, hdr: seq<byte>, dataVal: bool, emitted: Beat)
      requires Valid()
      requires OnBus(beat, B)
      requires respVal && ((state.Ready? && FieldClear(beat.data)) || (state.Output? && dataRdy)) ==>
        Fits(Pending(log.t.inp), beat, B)
      modifies this
      ensures Valid()
      ensures respRdy == (old(state).Ready? || old(state).Dropping? || (old(state).Output? && dataRdy))
      ensures hdrVal == old(hdrState).HdrOutput?
      ensures dataVal == (old(state).OutputLast? || (old(state).Output? && respVal))
      ensures hdrVal ==> hdr == old(regs.block) && (!hdrRdy ==> hdrState.HdrOutput? && regs.block == hdr)
      ensures log.t.inp == old(log.t.inp) + Maybe(respVal && respRdy, beat)
      ensures log.hdrs == old(log.hdrs) + Maybe(hdrVal && hdrRdy, hdr)
      ensures log.t.out == old(log.t.out) + Maybe(dataVal && dataRdy, emitted)
      ensures OnBus(emitted, B) && |hdr| == BLOCK
      ensures Goes(old(state), state, old(hdrState), respVal, dataRdy)
      ensures hdrState == NextHdr(old(hdrState), old(state), respVal, FieldClear(beat.data), hdrRdy)
    {
      hide DataOk, HdrOk, FieldClear, Fits, Pending, OnBus, Goes, NextHdr;
      RegShapes(state, hdrState, regs, log, B);
      HdrMovesTo(hdrState, state, respVal, FieldClear(beat.data), hdrRdy);
      respRdy, hdrVal, hdr := Reads(dataRdy), hdrState.HdrOutput?, regs.block;
      dataVal := state.OutputLast? || (state.Output? && respVal);
      if state.WaitFin? && hdrState.HdrWaitFin? {
        emitted := beat;
        CloseFrame();
      } else {
        emitted := DataStep(respVal, beat, dataRdy);
        if hdrVal && hdrRdy {
          HandOver();
        }
      }
    }

    /** Both machines go idle. */
    method CloseFrame()
      requires Valid() && state.WaitFin? && hdrState.HdrWaitFin?
      modifies this
      ensures Valid() && state.Ready? && hdrState.Waiting? && regs == old(regs)
      ensures log.t == old(log.t) && log.hdrs == old(log.hdrs)
    {
      hide DataOk, HdrOk;
      Close(regs, log, B);
      log := Closing(regs, log);
      state, hdrState := Ready, Waiting;
    }

    /** The header is taken. */
    method HandOver()
      requires Valid() && hdrState.HdrOutput? && !state.Ready?
      modifies this
      ensures Valid() && state == old(state) && hdrState.HdrWaitFin? && regs == old(regs)
      ensures log.t == old(log.t) && log.hdrs == old(log.hdrs) + [regs.block]
    {
      hide DataOk, HdrOk;
      HdrMoves(state, hdrState, regs, log, B);
      DataKeepsHdrs(state, regs, log, log.hdrs + [regs.block], B);
      log := log.(hdrs := log.hdrs + [regs.block]);
      hdrState := HdrWaitFin;
    }
  }

  lemma HdrMovesTo(h: HdrState, s: State, respVal: bool, matches: bool, hdrRdy: bool)
    requires s.Ready? <==> h.Waiting?
    ensures s.WaitFin? && h.HdrWaitFin? ==> NextHdr(h, s, respVal, matches, hdrRdy) == Waiting
    ensures s.WaitFin? && h.HdrWaitFin? ==> forall dataRdy :: Goes(s, Ready, h, respVal, dataRdy)
    ensures !(s.WaitFin? && h.HdrWaitFin?) ==>
      NextHdr(h, s, respVal, matches, hdrRdy) ==
        (if s.Ready? && respVal then (if matches then HdrOutput else HdrWaitFin)
         else if h.HdrOutput? && hdrRdy then HdrWaitFin else h)
  {
  }

  lemma FlushHdr(r: Regs, log: Log, h: HdrState)
    requires HdrOk(OutputLast, h, r, log)
    ensures forall t, body :: HdrOk(WaitFin, h, r, log.(t := t, body := body))
  {
  }

  lemma RegShapes(state: State, h: HdrState, r: Regs, log: Log, B: nat)
    requires DataOk(state, r, log, B) && HdrOk(state, h, r, log)
    ensures BLOCK < B && |r.block| == BLOCK && |r.hold| + BLOCK == B && (state.Ready? <==> h.Waiting?)
    ensures state.Output? ==> 0 < r.left
  {
    hide Idle, Draining, Finished, Discarding, Blocks, Judge, Closed, Open;
  }

  lemma BlockLen(data: seq<byte>)
    requires BLOCK <= |data|
    ensures UdpLen(data[..BLOCK]) == UdpLen(data)
  {
  }
}
