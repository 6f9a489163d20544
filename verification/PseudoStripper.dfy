/** The controllers behind the transmit checksum engines (UDP and TCP): they take
    the checksummed frame, hand the pseudo-header fields to the IP layer on one
    interface and the frame without its pseudo-header on another, with one
    state machine for each. */
module PseudoStripper {
  import opened Streams

  const PSEUDO: nat := 12

  datatype State = Ready | Output | OutputLast | WaitFin
  datatype HdrState = Waiting | HdrOutput | HdrWaitFin

  /** The length field of a pseudo-header. */
  function Len(s: seq<byte>): nat
    requires PSEUDO <= |s|
  {
    Field16(s, 8)
  }

  /** A beat that continues `got` keeps the promise of the length field: the frame
      is the pseudo-header and `Len` more bytes, at least one. */
  predicate Fits(got: seq<byte>, b: Beat, B: nat)
    requires PSEUDO < B && OnBus(b, B)
  {
    && 0 < Len(got + b.data)
    && if b.last then |got| + B - b.pad == PSEUDO + Len(got + b.data)
       else |got| + B < PSEUDO + Len(got + b.data)
  }

  datatype Trace = Trace(inp: seq<Beat>, out: seq<Beat>)

  function Heads(fs: seq<seq<byte>>): seq<seq<byte>> {
    if fs == [] then []
    else
      var f := fs[|fs| - 1];
      Heads(fs[..|fs| - 1]) + [if PSEUDO <= |f| then f[..PSEUDO] else []]
  }

  function Tails(fs: seq<seq<byte>>): seq<seq<byte>> {
    if fs == [] then []
    else
      var f := fs[|fs| - 1];
      Tails(fs[..|fs| - 1]) + [if PSEUDO <= |f| then f[PSEUDO..] else []]
  }

  lemma PushFrame(fs: seq<seq<byte>>, pseudo: seq<byte>, tail: seq<byte>)
    requires |pseudo| == PSEUDO
    ensures Heads(fs + [pseudo + tail]) == Heads(fs) + [pseudo]
    ensures Tails(fs + [pseudo + tail]) == Tails(fs) + [tail]
  {
    assert (fs + [pseudo + tail])[..|fs|] == fs;
    assert (pseudo + tail)[..PSEUDO] == pseudo && (pseudo + tail)[PSEUDO..] == tail;
  }

  /** `done` are the frames both machines have finished with. */
  ghost predicate Settled(t: Trace, done: seq<seq<byte>>, B: nat) {
    && AllClean(t.out, B)
    && Frames(t.out) == Tails(done)
  }

  ghost predicate Idle(t: Trace, done: seq<seq<byte>>, B: nat) {
    && Settled(t, done, B)
    && Frames(t.inp) == done && Open(t.inp) == [] && Open(t.out) == []
  }

  ghost predicate Streaming(t: Trace, done: seq<seq<byte>>, B: nat, pseudo: seq<byte>, hold: seq<byte>, left: nat) {
    && Settled(t, done, B)
    && Frames(t.inp) == done
    && |pseudo| == PSEUDO && |hold| + PSEUDO == B
    && Pending(t.inp) == (pseudo + Pending(t.out)) + hold
    && left + |Pending(t.out)| == Len(pseudo) < 0x10000
    && |Pending(t.inp)| < PSEUDO + Len(pseudo)
  }

  ghost predicate Draining(t: Trace, done: seq<seq<byte>>, B: nat, pseudo: seq<byte>, rest: seq<byte>) {
    && Settled(t, done, B)
    && |pseudo| == PSEUDO
    && Frames(t.inp) == done + [pseudo + (Pending(t.out) + rest)] && Open(t.inp) == []
  }

  ghost predicate Finished(t: Trace, done: seq<seq<byte>>, B: nat, pseudo: seq<byte>) {
    && AllClean(t.out, B)
    && |pseudo| == PSEUDO
    && Open(t.inp) == [] && Open(t.out) == []
    && Frames(t.inp) != [] && done + [Frames(t.inp)[|Frames(t.inp)| - 1]] == Frames(t.inp)
    && var f := Frames(t.inp)[|Frames(t.inp)| - 1];
    && PSEUDO <= |f| && f[..PSEUDO] == pseudo
    && Frames(t.out) == Tails(done) + [f[PSEUDO..]]
  }

  lemma PendingIdle(t: Trace)
    requires Open(t.inp) == [] && Open(t.out) == []
    ensures Pending(t.inp) == [] && Pending(t.out) == []
  {
  }

  lemma IdlePending(t: Trace, done: seq<seq<byte>>, B: nat)
    requires Idle(t, done, B)
    ensures Pending(t.inp) == []
  {
  }

  lemma TakeLong(t: Trace, done: seq<seq<byte>>, B: nat, b: Beat)
    requires Idle(t, done, B)
    requires PSEUDO < B && OnBus(b, B) && Fits([], b, B) && !b.last
    ensures Streaming(t.(inp := t.inp + [b]), done, B, b.data[..PSEUDO], b.data[PSEUDO..], Len(b.data))
  {
    hide Frames, Closed, Open, Payload, Pending, Tails;
    PendingIdle(t);
    Push(t.inp, b);
    assert [] + b.data == b.data;
    assert b.data == (b.data[..PSEUDO] + []) + b.data[PSEUDO..];
  }

  lemma TakeShort(t: Trace, done: seq<seq<byte>>, B: nat, b: Beat)
    requires Idle(t, done, B)
    requires PSEUDO < B && OnBus(b, B) && Fits([], b, B) && b.last
    ensures Len(b.data) <= B - PSEUDO
    ensures Draining(t.(inp := t.inp + [b]), done, B, b.data[..PSEUDO], b.data[PSEUDO..][..Len(b.data)])
  {
    hide Frames, Closed, Open, Payload, Pending, Tails, Len;
    PendingIdle(t);
    Push(t.inp, b);
    assert [] + b.data == b.data;
    assert [] + Bytes(b) == b.data[..B - b.pad];
    assert b.data[..B - b.pad] == b.data[..PSEUDO] + ([] + b.data[PSEUDO..][..B - b.pad - PSEUDO]);
  }

  lemma LenPrefix(pseudo: seq<byte>, sent: seq<byte>, hold: seq<byte>, data: seq<byte>)
    requires |pseudo| == PSEUDO
    ensures Len(((pseudo + sent) + hold) + data) == Len(pseudo)
  {
  }

  lemma PassMiddle(t: Trace, done: seq<seq<byte>>, B: nat, pseudo: seq<byte>, hold: seq<byte>, left: nat, b: Beat)
    requires Streaming(t, done, B, pseudo, hold, left)
    requires PSEUDO < B && OnBus(b, B) && Fits(Pending(t.inp), b, B) && !b.last
    ensures B < left
    ensures Streaming(t.(inp := t.inp + [b], out := t.out + [Beat(hold + b.data[..PSEUDO], false, 0)]),
                      done, B, pseudo, b.data[PSEUDO..], left - B)
  {
    hide Frames, Closed, Open, Payload, Pending, Tails, Len;
    Push(t.inp, b);
    Push(t.out, Beat(hold + b.data[..PSEUDO], false, 0));
    LenPrefix(pseudo, Pending(t.out), hold, b.data);
    Realign(pseudo + Pending(t.out), hold, Pending(t.inp), b.data, PSEUDO);
    assert pseudo + (Pending(t.out) + (hold + b.data[..PSEUDO])) == (pseudo + Pending(t.out)) + (hold + b.data[..PSEUDO]);
  }

  lemma PassFit(t: Trace, done: seq<seq<byte>>, B: nat, pseudo: seq<byte>, hold: seq<byte>, left: nat, b: Beat)
    requires Streaming(t, done, B, pseudo, hold, left)
    requires PSEUDO < B && OnBus(b, B) && Fits(Pending(t.inp), b, B) && b.last
    requires left <= B
    ensures 0 < left
    ensures Finished(t.(inp := t.inp + [b], out := t.out + [Beat(Masked(hold + b.data[..PSEUDO], B - left), true, B - left)]),
                     done, B, pseudo)
  {
    hide Frames, Closed, Open, Payload, Pending, Tails, Len;
    var sent, emitted := Pending(t.out), Beat(Masked(hold + b.data[..PSEUDO], B - left), true, B - left);
    Push(t.inp, b);
    LenPrefix(pseudo, sent, hold, b.data);
    assert left == |hold| + (B - b.pad);
    Push(t.out, emitted);
    RealignFit(pseudo + sent, hold, Pending(t.inp), b.data, PSEUDO, B - b.pad);
    assert Bytes(emitted) == (hold + b.data[..PSEUDO])[..left];
    var f := Pending(t.inp) + Bytes(b);
    assert f == (pseudo + sent) + Bytes(emitted);
    assert f == pseudo + (sent + Bytes(emitted));
    assert f[PSEUDO..] == sent + Bytes(emitted);
  }

  lemma PassSpill(t: Trace, done: seq<seq<byte>>, B: nat, pseudo: seq<byte>, hold: seq<byte>, left: nat, b: Beat)
    requires Streaming(t, done, B, pseudo, hold, left)
    requires PSEUDO < B && OnBus(b, B) && Fits(Pending(t.inp), b, B) && b.last
    requires B < left
    ensures left - B <= B - PSEUDO
    ensures Draining(t.(inp := t.inp + [b], out := t.out + [Beat(hold + b.data[..PSEUDO], false, 0)]),
                     done, B, pseudo, b.data[PSEUDO..][..left - B])
  {
    hide Frames, Closed, Open, Payload, Pending, Tails, Len;
    var sent, emitted := Pending(t.out), Beat(hold + b.data[..PSEUDO], false, 0);
    Push(t.inp, b);
    LenPrefix(pseudo, sent, hold, b.data);
    assert left == |hold| + (B - b.pad);
    Push(t.out, emitted);
    RealignSpill(pseudo + sent, hold, Pending(t.inp), b.data, PSEUDO, B - b.pad);
    var rest := b.data[PSEUDO..][..left - B];
    assert ((pseudo + sent) + emitted.data) + rest == pseudo + ((sent + emitted.data) + rest);
  }

  lemma Drain(t: Trace, done: seq<seq<byte>>, B: nat, pseudo: seq<byte>, hold: seq<byte>, filler: seq<byte>, left: nat)
    requires |hold| + |filler| == B && 0 < left <= |hold|
    requires Draining(t, done, B, pseudo, hold[..left])
    ensures Finished(t.(out := t.out + [Beat(Masked(hold + filler, B - left), true, B - left)]), done, B, pseudo)
  {
    hide Frames, Closed, Open, Payload, Pending, Tails, Len;
    var emitted := Beat(Masked(hold + filler, B - left), true, B - left);
    Push(t.out, emitted);
    assert Bytes(emitted) == hold[..left];
    var f := pseudo + (Pending(t.out) + hold[..left]);
    assert f[PSEUDO..] == Pending(t.out) + hold[..left];
  }

  lemma Finish(t: Trace, done: seq<seq<byte>>, B: nat, pseudo: seq<byte>)
    requires Finished(t, done, B, pseudo)
    ensures Idle(t, Frames(t.inp), B)
    ensures Heads(Frames(t.inp)) == Heads(done) + [pseudo]
  {
    hide Frames, Closed, Open, Payload, Pending, Tails, Heads, Len;
    var f := Frames(t.inp)[|Frames(t.inp)| - 1];
    assert f == f[..PSEUDO] + f[PSEUDO..];
    PushFrame(done, pseudo, f[PSEUDO..]);
  }

  /** The header machine: it waits for a first beat, offers the header once, and
      waits for the data machine before going idle with it. */
  function NextHdr(h: HdrState, s: State, respVal: bool, hdrRdy: bool): HdrState {
    match h
    case Waiting => if s.Ready? && respVal then HdrOutput else Waiting
    case HdrOutput => if hdrRdy then HdrWaitFin else HdrOutput
    case HdrWaitFin => if s.WaitFin? then Waiting else HdrWaitFin
  }

  /** Where a cycle can leave the data machine. */
  predicate Goes(s: State, s1: State, h: HdrState, respVal: bool, dataRdy: bool) {
    match s
    case Ready => if respVal then s1.Output? || s1.OutputLast? else s1.Ready?
    case Output => if respVal && dataRdy then !s1.Ready? else s1.Output?
    case OutputLast => s1 == if dataRdy then WaitFin else OutputLast
    case WaitFin => s1 == if h.HdrWaitFin? then Ready else WaitFin
  }

  /** The cycles both machines still need for the frame under way. */
  function Weight(s: State, h: HdrState): nat {
    (match s case Ready => 0 case Output => 3 case OutputLast => 2 case WaitFin => 1)
    + (match h case Waiting => 0 case HdrOutput => 2 case HdrWaitFin => 1)
  }

  /** Only a beat that comes in adds work; a machine that can move does some. */
  lemma WeightFalls(s: State, s1: State, h: HdrState, respVal: bool, hdrRdy: bool, dataRdy: bool)
    requires Goes(s, s1, h, respVal, dataRdy) && (s.Ready? <==> h.Waiting?)
    ensures var took := respVal && (s.Ready? || (s.Output? && dataRdy));
      var w, w1 := Weight(s, h), Weight(s1, NextHdr(h, s, respVal, hdrRdy));
      && w1 <= w + (if took then 5 else 0)
      && ((s.OutputLast? && dataRdy) || (h.HdrOutput? && hdrRdy) || (s.WaitFin? && h.HdrWaitFin?) ==> w1 < w)
  {
  }

  /** Headers handed over, and the frames that both machines have finished with. */
  datatype Log = Log(t: Trace, hdrs: seq<seq<byte>>, done: seq<seq<byte>>)

  class Stripper {
    const B: nat
    /** UDP tells a one-beat frame by its length field, TCP by the last flag. */
    const byLength: bool

    var state: State
    var hdrState: HdrState
    var pseudo: seq<byte>
    var hold: seq<byte>
    var left: nat

    ghost var log: Log

    ghost predicate Valid()
      reads this
    {
      && PSEUDO < B && |pseudo| == PSEUDO && |hold| + PSEUDO == B
      && (state.Ready? <==> hdrState.Waiting?)
      && log.hdrs == Heads(log.done) + Maybe(hdrState.HdrWaitFin?, pseudo)
      && match state {
        case Ready => Idle(log.t, log.done, B)
        case Output => Streaming(log.t, log.done, B, pseudo, hold, left)
        case OutputLast => 0 < left <= B - PSEUDO && Draining(log.t, log.done, B, pseudo, hold[..left])
        case WaitFin => Finished(log.t, log.done, B, pseudo)
      }
    }

    constructor (busBytes: nat, lengthTest: bool)
      requires PSEUDO < busBytes
      ensures Valid() && B == busBytes && byLength == lengthTest
      ensures state == Ready && log == Log(Trace([], []), [], [])
    {
      B, byLength := busBytes, lengthTest;
      state, hdrState := Ready, Waiting;
      pseudo, hold, left := seq(PSEUDO, _ => 0), seq(busBytes - PSEUDO, _ => 0), 0;
      log := Log(Trace([], []), [], []);
    }

    /** One clock edge. `hdr` is the pseudo-header whose fields drive the header interface. */
    method Step(respVal: bool, beat: Beat, hdrRdy: bool, dataRdy: bool)
      returns (respRdy: bool, hdrVal: bool, hdr: seq<byte>, dataVal: bool, emitted: Beat)
      requires Valid()
      requires OnBus(beat, B)
      requires respVal && (state.Ready? || (state.Output? && dataRdy)) ==> Fits(Pending(log.t.inp), beat, B)
      modifies this
      ensures Valid()
      ensures respRdy == (old(state).Ready? || (old(state).Output? && dataRdy))
      ensures hdrVal == old(hdrState).HdrOutput?
      ensures dataVal == (old(state).OutputLast? || (old(state).Output? && respVal))
      // The header offered does not change until it is taken.
      ensures hdrVal ==> hdr == old(pseudo) && (!hdrRdy ==> hdrState.HdrOutput? && pseudo == hdr)
      ensures log.t.inp == old(log.t.inp) + Maybe(respVal && respRdy, beat)
      ensures log.hdrs == old(log.hdrs) + Maybe(hdrVal && hdrRdy, hdr)
      ensures log.t.out == old(log.t.out) + Maybe(dataVal && dataRdy, emitted)
      ensures OnBus(emitted, B) && |hdr| == PSEUDO
      ensures dataVal ==> ZeroPadded(emitted)
      ensures Goes(old(state), state, old(hdrState), respVal, dataRdy)
      ensures hdrState == NextHdr(old(hdrState), old(state), respVal, hdrRdy)
    {
      hide Idle, Streaming, Draining, Finished, Heads, Tails, Masked, ZeroTail, Fits, Len, Open, Pending, Payload, Frames, Closed;
      respRdy, dataVal := false, false;
      emitted := Beat(hold + beat.data[..PSEUDO], false, 0);
      hdrVal, hdr := hdrState.HdrOutput?, pseudo;
      var hdrNext := NextHdr(hdrState, state, respVal, hdrRdy);
      ghost var t, done := log.t, log.done;
      ghost var hdrs := log.hdrs + Maybe(hdrVal && hdrRdy, pseudo);

      match state {
        case Ready =>
          respRdy := true;
          pseudo := beat.data[..PSEUDO];
          if respVal {
            IdlePending(t, done, B);
            OneBeat(beat, B);
            left, hold := Len(pseudo), beat.data[PSEUDO..];
            if beat.last { TakeShort(t, done, B, beat); } else { TakeLong(t, done, B, beat); }
            t := t.(inp := t.inp + [beat]);
            state := if (if byLength then left <= B - PSEUDO else beat.last) then OutputLast else Output;
          }
        case Output =>
          respRdy, dataVal := dataRdy, respVal;
          if respVal && dataRdy {
            if beat.last && left <= B {
              PassFit(t, done, B, pseudo, hold, left, beat);
              emitted := Beat(Masked(hold + beat.data[..PSEUDO], B - left), true, B - left);
              state := WaitFin;
            } else if beat.last {
              PassSpill(t, done, B, pseudo, hold, left, beat);
              left, state := left - B, OutputLast;
            } else {
              PassMiddle(t, done, B, pseudo, hold, left, beat);
              left := left - B;
            }
            hold := beat.data[PSEUDO..];
            t := t.(inp := t.inp + [beat], out := t.out + [emitted]);
          }
        case OutputLast =>
          dataVal := true;
          emitted := Beat(Masked(hold + beat.data[..PSEUDO], B - left), true, B - left);
          if dataRdy {
            Drain(t, done, B, pseudo, hold, beat.data[..PSEUDO], left);
            state := WaitFin;
            t := t.(out := t.out + [emitted]);
          }
        case WaitFin =>
          if hdrState.HdrWaitFin? {
            Finish(t, done, B, pseudo);
            state, done := Ready, Frames(t.inp);
          }
      }
      hdrState, log := hdrNext, Log(t, hdrs, done);
    }
  }

  /** A first beat is the only one exactly when the length field fits beside the pseudo-header. */
  lemma OneBeat(b: Beat, B: nat)
    requires PSEUDO < B && OnBus(b, B) && Fits([], b, B)
    ensures b.last <==> Len(b.data) <= B - PSEUDO
    ensures 0 < Len(b.data) == Len(b.data[..PSEUDO])
  {
    assert [] + b.data == b.data;
  }
}
