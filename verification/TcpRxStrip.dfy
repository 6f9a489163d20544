/** `rx_tcp_format_output_ctrl`: drops segments with a wrong checksum, and strips the
    pseudo-header and a TCP header of any length from the others. */
module TcpRxStrip {
  import opened Streams
  import opened Parsing
  import opened Verdicts
  import opened Realigner
  import PseudoStripper

  datatype State = Ready | HdrDrain | FirstData | Output | OutputLast | Dropping | WaitFin
  datatype HdrState = Waiting | HdrOutput | HdrWaitFin

  const INFO: nat := 32 // pseudo-header and fixed TCP header

  /** The registers; `rem` counts header bytes and is then the realignment shift. */
  datatype All = All(state: State, h: HdrState, info: seq<byte>, rem: nat, upper: seq<byte>, lower: seq<byte>, left: nat)

  /** The frame length that the pseudo-header announces. */
  function Total(s: seq<byte>): nat
    requires PseudoStripper.PSEUDO <= |s|
  {
    PseudoStripper.PSEUDO + Field16(s, 8)
  }

  lemma TotalPrefix(s: seq<byte>, t: seq<byte>)
    requires PseudoStripper.PSEUDO <= |s|
    ensures Total(s + t) == Total(s)
  {
  }

  /** A beat of an accepted frame after the bytes `got`: the header fits in the segment, and
      the frame is as long as announced. */
  predicate Fits(got: seq<byte>, b: Beat, B: nat)
    requires INFO <= B == |b.data|
  {
    var s := got + b.data;
    && INFO <= Skip(Tcp, s) <= Total(s)
    && (if b.last then |got| + B - b.pad == Total(s) else |got| + B < Total(s))
  }

  /** The header fields of the accepted frames. */
  function Infos(gs: seq<seq<byte>>): seq<seq<byte>> {
    if gs == [] then []
    else
      var g := gs[|gs| - 1];
      Infos(gs[..|gs| - 1]) + [if INFO <= |g| then g[..INFO] else []]
  }

  lemma PushInfo(gs: seq<seq<byte>>, head: seq<byte>, body: seq<byte>)
    requires INFO <= |head|
    ensures Infos(gs + [head + body]) == Infos(gs) + [head[..INFO]]
  {
    assert (gs + [head + body])[..|gs|] == gs;
    assert (head + body)[..INFO] == head[..INFO];
  }

  datatype Log = Log(t: Trace, hdrs: seq<seq<byte>>, done: seq<seq<byte>>, good: bool, head: seq<byte>, body: seq<byte>)

  /** More of the frame is to come. */
  ghost predicate More(t: Trace, known: seq<byte>) {
    INFO <= |known| && |Pending(t.inp)| < Total(known)
  }

  ghost predicate DataOk(a: All, log: Log, B: nat) {
    && INFO <= B && |a.upper| == |a.lower| == B && |a.info| == INFO
    && match a.state
       case Ready => Idle(Tcp, log.t, log.done, B)
       case HdrDrain =>
         && log.good && a.rem > 0 && Seeking(Tcp, log.t, log.done, B, a.rem) && More(log.t, Pending(log.t.inp))
         && Pending(log.t.inp)[..INFO] == a.info
         && a.left + Skip(Tcp, Pending(log.t.inp)) == Total(Pending(log.t.inp))
       case FirstData =>
         && log.good && First(Tcp, log.t, log.done, B, log.head, a.upper, a.rem) && More(log.t, log.head)
         && log.head[..INFO] == a.info
         && a.left + |log.head| == Total(log.head)
       case Output =>
         && log.good && Streaming(Tcp, log.t, log.done, B, log.head, a.upper, a.lower, a.rem) && More(log.t, log.head)
         && log.head[..INFO] == a.info
         && a.left + |log.head| + |Pending(log.t.out)| == Total(log.head)
       case OutputLast =>
         && log.good && a.rem <= B && 0 < a.left <= 2 * B - a.rem
         && INFO <= |log.head| && log.head[..INFO] == a.info
         && Draining(Tcp, log.t, log.done, B, log.head, (a.upper + a.lower)[a.rem..][..a.left])
       case Dropping => !log.good && Discarding(Tcp, log.t, log.done, B)
       case WaitFin =>
         if log.good then
           INFO <= |log.head| && log.head[..INFO] == a.info && Finished(Tcp, log.t, log.done, B, log.head, log.body)
         else Idle(Tcp, log.t, log.done, B)
  }

  ghost predicate HdrOk(a: All, log: Log) {
    && (a.state == Ready <==> a.h == Waiting)
    && (!log.good ==> a.h != HdrOutput)
    && log.hdrs == Infos(log.done) + Maybe(a.h == HdrWaitFin && log.good, a.info)
  }

  ghost predicate Inv(a: All, log: Log, B: nat) {
    DataOk(a, log, B) && HdrOk(a, log)
  }

  // ----- the steps -----

  /** READY, for a frame whose checksum is right. */
  function Took(a: All, b: Beat, B: nat): All
    requires INFO <= B == |b.data| && INFO <= Skip(Tcp, b.data) <= Total(b.data)
  {
    var s, n := Skip(Tcp, b.data), Total(b.data) - Skip(Tcp, b.data);
    var a1 := a.(h := HdrOutput, info := b.data[..INFO], left := n);
    if s > B then a1.(state := HdrDrain, rem := s - B)
    else a1.(state := if !b.last then FirstData else if n == 0 then WaitFin else OutputLast, rem := s, upper := b.data)
  }

  /** The log after the beat `b`, when the header ends `rem` bytes into it, or later. */
  function Found(log: Log, b: Beat, rem: nat): Log {
    log.(t := log.t.(inp := log.t.inp + [b]), good := true, body := [],
         head := if rem <= |b.data| then Pending(log.t.inp) + b.data[..rem] else log.head)
  }

  lemma Opening(t: Trace, done: seq<seq<byte>>, B: nat, b: Beat)
    requires Idle(Tcp, t, done, B) && Good(Tcp, b.data) && INFO <= B && OnBus(b, B) && Fits(Pending(t.inp), b, B)
    ensures Before(Tcp, t, done, B, b, Skip(Tcp, b.data)) && Pending(t.inp) == []
    ensures INFO <= Skip(Tcp, b.data) <= Total(b.data)
    ensures Fits([], b, B)
  {
    NothingPending(t.inp);
    assert [] + b.data == b.data;
    hide Idle, Skip, Total;
  }

  /** What `Fits` says about the header's last beat and about the counters. */
  lemma Lengths(got: seq<byte>, b: Beat, rem: nat, B: nat)
    requires INFO <= B && OnBus(b, B) && Fits(got, b, B) && Skip(Tcp, got + b.data) == |got| + rem
    ensures b.last ==> rem <= B - b.pad && Total(got + b.data) - Skip(Tcp, got + b.data) == B - b.pad - rem
    ensures rem <= B ==> Total(got + b.data[..rem]) == Total(got + b.data)
    ensures rem <= B ==> (got + b.data[..rem])[..INFO] == (got + b.data)[..INFO]
  {
    if rem <= B {
      SplitAt(got, b.data, rem, B);
      TotalPrefix(got + b.data[..rem], b.data[rem..]);
      var head := got + b.data[..rem];
      assert (head + b.data[rem..])[..INFO] == head[..INFO];
    }
    hide Skip, Total;
  }

  lemma Take(a: All, log: Log, B: nat, b: Beat)
    requires Inv(a, log, B) && a.state == Ready && OnBus(b, B) && Good(Tcp, b.data) && Fits(Pending(log.t.inp), b, B)
    ensures INFO <= Skip(Tcp, b.data) <= Total(b.data)
    ensures Inv(Took(a, b, B), Found(log, b, Skip(Tcp, b.data)), B)
  {
    hide Idle, First, Streaming, Draining, Finished, Seeking, Before, Skip, Total, Pending, Good, Fits;
    Opening(log.t, log.done, B, b);
    var s := Skip(Tcp, b.data);
    assert [] + b.data == b.data;
    Reached(a, log, B, b, s);
    hide Infos;
  }

  /** The part of DataOk that a beat at the end of the header establishes. */
  lemma Reached(a: All, log: Log, B: nat, b: Beat, rem: nat)
    requires INFO <= B && |a.lower| == B && OnBus(b, B) && Before(Tcp, log.t, log.done, B, b, rem)
    requires Fits(Pending(log.t.inp), b, B)
    ensures var got := Pending(log.t.inp) + b.data;
      var n := Total(got) - Skip(Tcp, got);
      var log1 := Found(log, b, rem);
      && n >= 0 && INFO <= |got|
      && (rem > B ==> !b.last && Seeking(Tcp, log1.t, log.done, B, rem - B) && Pending(log1.t.inp) == got && More(log1.t, got))
      && (rem <= B ==> INFO <= |log1.head| && log1.head[..INFO] == got[..INFO] && n + |log1.head| == Total(log1.head))
      && (rem <= B && !b.last ==> First(Tcp, log1.t, log.done, B, log1.head, b.data, rem) && More(log1.t, log1.head))
      && (b.last ==> n == B - b.pad - rem && rem <= B)
      && (b.last && n > 0 ==> Draining(Tcp, log1.t, log.done, B, log1.head, (b.data + a.lower)[rem..][..n]))
      && (b.last && n == 0 ==> Finished(Tcp, log1.t, log.done, B, log1.head, []))
  {
    hide Idle, First, Streaming, Draining, Finished, Seeking, Before, Skip, Total, Pending, Good, Passes, Judge, Closed, Open, Settled, Knows;
    var got := Pending(log.t.inp);
    BeforeKnows(Tcp, log.t, log.done, B, b, rem);
    SkipOfAll(got, b);
    Lengths(got, b, rem, B);
    Push(log.t.inp, b);
    if b.last {
      ReachLast(Tcp, log.t, log.done, B, b, rem);
      OneLine(b.data, a.lower, rem, b.pad, B);
    } else {
      Reach(Tcp, log.t, log.done, B, b, rem);
    }
  }

  lemma SkipOfAll(got: seq<byte>, b: Beat)
    requires b.pad <= |b.data| && Knows(Tcp, got + Bytes(b))
    ensures Skip(Tcp, got + b.data) == Skip(Tcp, got + Bytes(b)) && INFO <= |got + b.data|
  {
    var x := b.data[|Bytes(b)|..];
    assert b.data == Bytes(b) + x;
    assert got + b.data == (got + Bytes(b)) + x;
    SkipPrefix(Tcp, got + Bytes(b), x);
  }

  /** TCP_HDR_DRAIN: another line of the header. */
  function Drained(a: All, b: Beat, B: nat): All {
    if a.rem <= B then a.(state := if !b.last then FirstData else if a.left > 0 then OutputLast else WaitFin, upper := b.data)
    else a.(upper := b.data, rem := a.rem - B)
  }

  lemma Drain(a: All, log: Log, B: nat, b: Beat)
    requires Inv(a, log, B) && a.state == HdrDrain && OnBus(b, B) && INFO <= B && Fits(Pending(log.t.inp), b, B)
    ensures Inv(Drained(a, b, B), Found(log, b, a.rem), B)
  {
    hide Idle, First, Streaming, Draining, Finished, Seeking, Skip, Total, Pending, Good, Fits, Infos;
    Seeks(a, log, B, b);
    Reached(a, log, B, b, a.rem);
    hide Before;
  }

  lemma Seeks(a: All, log: Log, B: nat, b: Beat)
    requires DataOk(a, log, B) && a.state == HdrDrain
    ensures Before(Tcp, log.t, log.done, B, b, a.rem)
    ensures var got := Pending(log.t.inp);
      && (got + b.data)[..INFO] == a.info
      && Total(got + b.data) - Skip(Tcp, got + b.data) == a.left
  {
    var got := Pending(log.t.inp);
    SkipPrefix(Tcp, got, b.data);
    TotalPrefix(got, b.data);
    assert (got + b.data)[..INFO] == got[..INFO];
    hide Skip, Total, First, Streaming, Draining, Finished, InFrame, Pending;
  }

  /** FIRST_DATA and DATA_OUTPUT. */
  function Moved(a: All, b: Beat, B: nat): All
    requires a.state == Output ==> B <= a.left
  {
    a.(state := if b.last then OutputLast else Output,
       upper := if a.state == FirstData then a.upper else a.lower, lower := b.data,
       left := if a.state == Output then a.left - B else a.left)
  }

  function Top(a: All, B: nat): (w: seq<byte>)
    requires |a.upper| == |a.lower| == B && a.rem <= B
    ensures |w| == B
  {
    (a.upper + a.lower)[a.rem..][..B]
  }

  /** What the data machine holds of the frame. */
  ghost predicate Holds(a: All, log: Log, B: nat, x: seq<byte>) {
    && Pending(log.t.inp) == log.head + x && INFO <= |log.head| && a.rem <= B
    && |x| == (if a.state == FirstData then B - a.rem else |Pending(log.t.out)| + 2 * B - a.rem)
    && a.left + |log.head| + (if a.state == FirstData then 0 else |Pending(log.t.out)|) == Total(log.head)
  }

  lemma Held(a: All, log: Log, B: nat) returns (x: seq<byte>)
    requires DataOk(a, log, B) && (a.state == FirstData || a.state == Output)
    ensures Holds(a, log, B, x)
  {
    hide Total, Skip, InFrame, Pending, IsHead;
    if a.state == FirstData {
      x := a.upper[a.rem..];
    } else {
      x := Pending(log.t.out) + (a.upper + a.lower)[a.rem..];
      Assoc(log.head, Pending(log.t.out), (a.upper + a.lower)[a.rem..]);
    }
  }

  /** The counter against the bytes that came in. */
  lemma HeadLengths(a: All, log: Log, B: nat, b: Beat, x: seq<byte>)
    requires Holds(a, log, B, x) && (a.state == FirstData || a.state == Output) && OnBus(b, B) && INFO <= B && Fits(Pending(log.t.inp), b, B)
    ensures var sent := if a.state == Output then B else 0;
      && sent <= a.left && a.rem <= B
      && (b.last ==> a.left - sent == 2 * B - a.rem - b.pad)
      && (!b.last ==> |Pending(log.t.inp)| + B < Total(log.head))
  {
    hide Pending, Skip;
    Assoc(log.head, x, b.data);
    TotalPrefix(log.head, x + b.data);
    hide Total;
  }

  lemma NothingSent(t: Trace, done: seq<seq<byte>>, B: nat, head: seq<byte>, upper: seq<byte>, H: nat)
    requires First(Tcp, t, done, B, head, upper, H)
    ensures Pending(t.out) == []
  {
    NothingPending(t.out);
  }

  lemma MoveFirst(a: All, log: Log, B: nat, b: Beat)
    requires Inv(a, log, B) && a.state == FirstData && OnBus(b, B) && INFO <= B && Fits(Pending(log.t.inp), b, B)
    ensures Inv(Moved(a, b, B), log.(t := log.t.(inp := log.t.inp + [b])), B)
  {
    hide Idle, Seeking, Draining, Finished, First, Streaming, Skip, Total, Pending, Infos, Fits, Holds, InFrame, IsHead;
    hide Frames, Closed, Open, Payload, Field16;
    var x := Held(a, log, B);
    HeadLengths(a, log, B, b, x);
    NothingSent(log.t, log.done, B, log.head, a.upper, a.rem);
    Second(Tcp, log.t, log.done, B, log.head, a.upper, a.rem, b);
    Push(log.t.inp, b);
  }

  lemma MoveNext(a: All, log: Log, B: nat, b: Beat)
    requires Inv(a, log, B) && a.state == Output && OnBus(b, B) && INFO <= B && Fits(Pending(log.t.inp), b, B)
    ensures |a.upper| == |a.lower| == B && a.rem <= B <= a.left
    ensures Inv(Moved(a, b, B), log.(t := Trace(log.t.inp + [b], log.t.out + [Beat(Top(a, B), false, 0)])), B)
  {
    hide Idle, Seeking, Draining, Finished, First, Streaming, Skip, Total, Pending, Infos, Fits, Holds, InFrame, IsHead;
    hide Frames, Closed, Open, Payload, Field16;
    var x := Held(a, log, B);
    HeadLengths(a, log, B, b, x);
    Pass(Tcp, log.t, log.done, B, log.head, a.upper, a.lower, a.rem, b);
    Push(log.t.inp, b);
    Push(log.t.out, Beat(Top(a, B), false, 0));
  }

  /** DATA_OUTPUT_LAST. */
  function Final(a: All, B: nat): Beat
    requires |a.upper| == |a.lower| == B && a.rem <= B
  {
    Beat(Top(a, B), a.left <= B, if a.left <= B then B - a.left else 0)
  }

  function Emptied(a: All, B: nat): All {
    if a.left > B then a.(left := a.left - B, upper := a.lower, lower := seq(B, _ => 0)) else a.(state := WaitFin, left := 0)
  }

  lemma Empty(a: All, log: Log, B: nat)
    requires Inv(a, log, B) && a.state == OutputLast
    ensures |a.upper| == |a.lower| == B && a.rem <= B && 0 < a.left
    ensures var log1 := log.(t := log.t.(out := log.t.out + [Final(a, B)]));
      Inv(Emptied(a, B), if a.left > B then log1 else log1.(body := Pending(log.t.out) + Top(a, B)[..a.left]), B)
    ensures a.left > B ==> Emptied(a, B).left <= B
  {
    hide Idle, Seeking, Draining, Finished, First, Streaming, Skip, Total, Pending, Infos;
    Flush(Tcp, log.t, log.done, B, log.head, a.upper, a.lower, a.rem, a.left);
  }

  /** A wrong checksum. */
  lemma Drop(a: All, log: Log, B: nat, b: Beat)
    requires Inv(a, log, B)
    ensures a.state == Ready && !Good(Tcp, b.data) ==>
      Inv(a.(state := Dropping, h := HdrWaitFin), log.(t := log.t.(inp := log.t.inp + [b]), good := false), B)
    ensures a.state == Dropping ==>
      Inv(a.(state := if b.last then WaitFin else Dropping), log.(t := log.t.(inp := log.t.inp + [b])), B)
  {
    hide Idle, Seeking, Draining, Finished, First, Streaming, Discarding, Skip, Total, Pending, Infos, Good;
    if a.state == Ready && !Good(Tcp, b.data) {
      Reject(Tcp, log.t, log.done, B, b);
    }
    if a.state == Dropping {
      DiscardMore(Tcp, log.t, log.done, B, b);
    }
  }

  /** The header machine moves, or both go idle. */
  lemma HdrMoves(a: All, log: Log, B: nat, hdrRdy: bool)
    requires Inv(a, log, B) && a.state != Ready
    ensures a.h == HdrOutput && hdrRdy ==> log.good && Inv(a.(h := HdrWaitFin), log.(hdrs := log.hdrs + [a.info]), B)
    ensures a.h == HdrWaitFin && a.state == WaitFin ==>
      Inv(a.(h := Waiting, state := Ready), if log.good then log.(done := log.done + [log.head + log.body]) else log, B)
  {
    hide Idle, Seeking, Draining, Finished, First, Streaming, Discarding, Skip, Total, Pending, Infos, Good;
    if a.h == HdrWaitFin && a.state == WaitFin && log.good {
      Finish(Tcp, log.t, log.done, B, log.head, log.body);
      PushInfo(log.done, log.head, log.body);
    }
    assert Infos(log.done) + [] == Infos(log.done);
  }

  /** The cycles both machines still need for what they have taken. */
  function Weight(a: All, B: nat): nat {
    (match a.state
     case Ready => 0
     case HdrDrain | FirstData | Output | Dropping => 4
     case OutputLast => if a.left > B then 3 else 2
     case WaitFin => 1)
    + match a.h case Waiting => 0 case HdrOutput => 2 case HdrWaitFin => 1
  }

  /** Nothing to do but to take the next beat. */
  predicate AwaitsBeat(a: All) {
    a.state in {Ready, HdrDrain, FirstData, Output, Dropping} && a.h != HdrOutput
  }

  class Formatter {
    const B: nat
    var a: All
    ghost var log: Log

    ghost predicate Valid()
      reads this
    {
      Inv(a, log, B)
    }

    constructor (busBytes: nat)
      requires INFO <= busBytes
      ensures Valid() && B == busBytes && a.state == Ready && log == Log(Trace([], []), [], [], false, [], [])
    {
      B := busBytes;
      a := All(Ready, Waiting, seq(INFO, _ => 0), 0, seq(busBytes, _ => 0), seq(busBytes, _ => 0), 0);
      log := Log(Trace([], []), [], [], false, [], []);
    }

    /** Whether the response bus is read in this state. */
    predicate Reads(dataRdy: bool)
      reads this
    {
      a.state in {Ready, HdrDrain, FirstData, Dropping} || (a.state == Output && dataRdy)
    }

    /** The data machine takes a beat. */
    method TakeBeat(beat: Beat) returns (out: Beat)
      requires Valid() && OnBus(beat, B) && Reads(true)
      requires INFO <= B && (a.state == Dropping || (a.state == Ready && !Good(Tcp, beat.data)) || Fits(Pending(log.t.inp), beat, B))
      modifies this
      ensures Valid() && OnBus(out, B) && !out.last && a.state != Ready
      ensures old(a.state) == Ready ==> a.h == (if Good(Tcp, beat.data) then HdrOutput else HdrWaitFin)
      ensures old(a.state) != Ready ==> a.h == old(a.h) && a.info == old(a.info)
      ensures log.t.inp == old(log.t.inp) + [beat] && log.t.out == old(log.t.out) + Maybe(old(a.state) == Output, out)
      ensures log.hdrs == old(log.hdrs)
    {
      hide Inv, Good, Fits, Top, Skip, Total, Pending;
      out := Beat(beat.data, false, 0);
      if a.state == Ready {
        if Good(Tcp, beat.data) {
          Take(a, log, B, beat);
          log := Found(log, beat, Skip(Tcp, beat.data));
          a := Took(a, beat, B);
        } else {
          Drop(a, log, B, beat);
          log := log.(t := log.t.(inp := log.t.inp + [beat]), good := false);
          a := a.(state := Dropping, h := HdrWaitFin);
        }
      } else if a.state == HdrDrain {
        Drain(a, log, B, beat);
        log := Found(log, beat, a.rem);
        a := Drained(a, beat, B);
      } else if a.state == FirstData {
        MoveFirst(a, log, B, beat);
        log := log.(t := log.t.(inp := log.t.inp + [beat]));
        a := Moved(a, beat, B);
      } else if a.state == Output {
        MoveNext(a, log, B, beat);
        out := Beat(Top(a, B), false, 0);
        log := log.(t := Trace(log.t.inp + [beat], log.t.out + [out]));
        a := Moved(a, beat, B);
      } else {
        Drop(a, log, B, beat);
        log := log.(t := log.t.(inp := log.t.inp + [beat]));
        a := a.(state := if beat.last then WaitFin else Dropping);
      }
    }

    /** One clock edge. */
    method Step(val: bool, beat: Beat, hdrRdy: bool, dataRdy: bool)
      returns (srcRdy: bool, hdrVal: bool, info: seq<byte>, outVal: bool, out: Beat)
      requires Valid() && OnBus(beat, B) && INFO <= B
      requires val && Reads(dataRdy) && a.state != Dropping && !(a.state == Ready && !Good(Tcp, beat.data)) ==>
        Fits(Pending(log.t.inp), beat, B)
      modifies this
      ensures Valid() && OnBus(out, B)
      ensures srcRdy == (old(a.state) in {Ready, HdrDrain, FirstData, Dropping} || (old(a.state) == Output && dataRdy))
      ensures hdrVal == (old(a.h) == HdrOutput)
      ensures outVal == (old(a.state) == OutputLast || (old(a.state) == Output && val))
      ensures log.t.inp == old(log.t.inp) + Maybe(val && srcRdy, beat)
      ensures log.t.out == old(log.t.out) + Maybe(outVal && dataRdy, out)
      ensures log.hdrs == old(log.hdrs) + Maybe(hdrVal && hdrRdy, info)
      // the header on offer does not change until it is taken
      ensures info == old(a.info) && (hdrVal && !hdrRdy ==> a.h == HdrOutput && a.info == info)
      // draining takes at most two output beats
      ensures old(a.state) == OutputLast && dataRdy ==> a.state == WaitFin || (old(a.left) > B && a.left <= B)
      // progress: only a beat that comes in adds work, and without stalls every cycle does some
      ensures Weight(a, B) <= old(Weight(a, B)) + if val && srcRdy then 6 else 0
      ensures hdrRdy && dataRdy && !(val && srcRdy) ==> Weight(a, B) < old(Weight(a, B)) || old(AwaitsBeat(a))
    {
      hide Inv, Top, Good, Fits, Pending;
      srcRdy := Reads(dataRdy);
      hdrVal, info, outVal, out := a.h == HdrOutput, a.info, false, Beat(beat.data, false, 0);
      TwinStates(a, log, B);
      if a.state == WaitFin && a.h == HdrWaitFin {
        HdrMoves(a, log, B, hdrRdy);
        log := if log.good then log.(done := log.done + [log.head + log.body]) else log;
        a := a.(h := Waiting, state := Ready);
      } else {
        outVal := a.state == OutputLast || (a.state == Output && val);
        if val && srcRdy {
          out := TakeBeat(beat);
        } else if a.state == Output {
          out := Beat(Top(a, B), false, 0);
        } else if a.state == OutputLast {
          Empty(a, log, B);
          out := Final(a, B);
          if dataRdy {
            ghost var log1 := log.(t := log.t.(out := log.t.out + [out]));
            log := if a.left > B then log1 else log1.(body := Pending(log.t.out) + Top(a, B)[..a.left]);
            a := Emptied(a, B);
          }
        }
        if hdrVal && hdrRdy {
          HdrMoves(a, log, B, hdrRdy);
          log := log.(hdrs := log.hdrs + [a.info]);
          a := a.(h := HdrWaitFin);
        }
      }
    }
  }

  /** The twin machines are idle together. */
  lemma TwinStates(a: All, log: Log, B: nat)
    requires Inv(a, log, B)
    ensures |a.info| == INFO && |a.upper| == |a.lower| == B && (a.state == Ready <==> a.h == Waiting)
    ensures a.state == Output ==> a.rem <= B
  {
    hide Idle, Seeking, First, Draining, Finished, Discarding, Infos, InFrame, Pending, Total;
  }

  /** TCP header strip. What is handed over are, in order, the header fields of the accepted
      frames and their payloads: the bytes after pseudo-header and TCP header, options
      included. A dropped frame yields neither, and what is out of the frame under way is the
      beginning of its payload. */
  lemma Strips(f: Formatter)
    requires f.Valid()
    ensures var t, v := f.log.t, Judge(Tcp, Closed(f.log.t.inp));
      && AllClean(t.out, f.B)
      && f.log.done <= v.good && |v.good| <= |f.log.done| + 1
      && Infos(f.log.done) <= f.log.hdrs && |f.log.hdrs| <= |Infos(f.log.done)| + 1
      && (f.a.state != WaitFin ==> Frames(t.out) == Tails(Tcp, f.log.done))
      && (f.a.state !in {Output, OutputLast} ==> Open(t.out) == [])
      && (f.a.state == Output ==> v.good == f.log.done && Underway(Tcp, Pending(t.out), Pending(t.inp)))
      && (f.a.state == OutputLast ==> |v.good| == |f.log.done| + 1 && Underway(Tcp, Pending(t.out), v.good[|f.log.done|]))
      && (f.a.state == Ready ==> v == Verdict(f.log.done, false) && Frames(t.out) == Tails(Tcp, v.good) && f.log.hdrs == Infos(v.good))
      && (f.a.state == WaitFin ==> Frames(t.out) == Tails(Tcp, v.good))
      && (f.a.state == Dropping ==> Frames(t.out) == Tails(Tcp, v.good) && f.log.hdrs == Infos(v.good))
  {
    hide Frames, Closed, Tails, Infos, Judge, Open, Pending, AllClean, Skip, Total, Knows, Passes, Underway;
    var a, sent := f.a, Pending(f.log.t.out);
    if a.state == WaitFin && f.log.good {
      PushGood(Tcp, f.log.done, f.log.head, f.log.body);
    } else if a.state == Output {
      PartOf(Tcp, f.log.head, sent, (a.upper + a.lower)[a.rem..]);
    } else if a.state == OutputLast {
      PartOf(Tcp, f.log.head, sent, (a.upper + a.lower)[a.rem..][..a.left]);
    }
  }

  // ----- in terms of segments -----

  /** A TCP segment behind its pseudo-header; the data offset in the high half of byte 12 of
      the header counts words of four bytes. */
  datatype Segment = Segment(pseudo: seq<byte>, hdr: seq<byte>, body: seq<byte>)

  predicate SegmentOk(g: Segment) {
    |g.pseudo| == 12 && 20 <= |g.hdr| && |g.hdr| == 4 * (g.hdr[12] as int / 16)
  }

  ghost predicate AllSegments(gs: seq<Segment>) {
    forall i :: 0 <= i < |gs| ==> SegmentOk(gs[i])
  }

  function Whole(g: Segment): seq<byte> {
    g.pseudo + g.hdr + g.body
  }

  function Wholes(gs: seq<Segment>): (fs: seq<seq<byte>>)
    ensures |fs| == |gs| && forall i :: 0 <= i < |gs| ==> fs[i] == Whole(gs[i])
  {
    seq(|gs|, i requires 0 <= i < |gs| => Whole(gs[i]))
  }

  /** The payloads, an empty one yielding no frame. */
  function Payloads(gs: seq<Segment>): seq<seq<byte>> {
    if gs == [] then [] else Payloads(gs[..|gs| - 1]) + Maybe(gs[|gs| - 1].body != [], gs[|gs| - 1].body)
  }

  /** Pseudo-header and fixed header of each segment. */
  function Fields(gs: seq<Segment>): (hs: seq<seq<byte>>)
    requires AllSegments(gs)
    ensures |hs| == |gs| && forall i :: 0 <= i < |gs| ==> hs[i] == gs[i].pseudo + gs[i].hdr[..20]
  {
    seq(|gs|, i requires 0 <= i < |gs| => gs[i].pseudo + gs[i].hdr[..20])
  }

  lemma HeadOf(g: Segment)
    requires SegmentOk(g)
    ensures INFO <= |g.pseudo + g.hdr| && 20 <= |g.hdr|
    ensures IsHead(Tcp, g.pseudo + g.hdr) && (g.pseudo + g.hdr)[..INFO] == g.pseudo + g.hdr[..20]
    ensures Whole(g)[..INFO] == g.pseudo + g.hdr[..20]
  {
    assert (g.pseudo + g.hdr)[24] == g.hdr[12];
  }

  /** Cutting segments at the header length the machine computes leaves their payloads. */
  lemma {:induction false} CutSegments(gs: seq<Segment>)
    requires AllSegments(gs)
    ensures Tails(Tcp, Wholes(gs)) == Payloads(gs) && Infos(Wholes(gs)) == Fields(gs)
  {
    if gs != [] {
      CutSegments(gs[..|gs| - 1]);
      PushSegment(gs[..|gs| - 1], gs[|gs| - 1]);
      assert gs == gs[..|gs| - 1] + [gs[|gs| - 1]];
    }
  }

  lemma PushSegment(init: seq<Segment>, g: Segment)
    requires AllSegments(init) && SegmentOk(g)
    ensures Tails(Tcp, Wholes(init + [g])) == Tails(Tcp, Wholes(init)) + Maybe(g.body != [], g.body)
    ensures Infos(Wholes(init + [g])) == Infos(Wholes(init)) + [g.pseudo + g.hdr[..20]]
    ensures Payloads(init + [g]) == Payloads(init) + Maybe(g.body != [], g.body)
    ensures AllSegments(init + [g]) && Fields(init + [g]) == Fields(init) + [g.pseudo + g.hdr[..20]]
  {
    hide Tails, Infos, IsHead, SegmentOk;
    HeadOf(g);
    assert Wholes(init + [g]) == Wholes(init) + [(g.pseudo + g.hdr) + g.body];
    PushGood(Tcp, Wholes(init), g.pseudo + g.hdr, g.body);
    PushInfo(Wholes(init), g.pseudo + g.hdr, g.body);
    assert (init + [g])[..|init|] == init;
  }

  lemma {:induction false} CutsGrow(a: seq<Segment>, b: seq<Segment>)
    requires a <= b
    ensures Payloads(a) <= Payloads(b)
    decreases |b|
  {
    if a != b {
      assert a <= b[..|b| - 1];
      CutsGrow(a, b[..|b| - 1]);
    }
  }

  /** In every reachable state in which the accepted frames are the segments `gs`, what is
      handed over are, in order, their fields and their payloads, options gone, and perhaps the
      fields of the segment under way; at rest it is all of them. */
  lemma StripsSegments(f: Formatter, gs: seq<Segment>)
    requires f.Valid() && AllSegments(gs) && Judge(Tcp, Closed(f.log.t.inp)).good == Wholes(gs)
    ensures Frames(f.log.t.out) <= Payloads(gs)
    ensures f.log.hdrs <= Fields(gs)
         || (|f.log.hdrs| == |gs| + 1 && f.log.hdrs[..|gs|] == Fields(gs) && f.log.hdrs[|gs|] <= Pending(f.log.t.inp))
    ensures f.a.state == Ready ==> f.log.hdrs == Fields(gs) && Frames(f.log.t.out) == Payloads(gs)
  {
    hide *;
    var n, part := |f.log.done|, Pending(f.log.t.inp);
    Delivers(f);
    InfoIs(f);
    FirstSegments(gs, f.log.done, Judge(Tcp, Closed(f.log.t.inp)).good);
    var ahead := f.a.h == HdrWaitFin && f.log.good;
    FieldsAhead(gs, n, ahead, f.a.info, f.log.hdrs, part);
  }

  /** `Strips`, as far as the lists of frames go. */
  lemma Delivers(f: Formatter)
    requires f.Valid()
    ensures var t, v := f.log.t, Judge(Tcp, Closed(f.log.t.inp));
      && f.log.done <= v.good
      && Frames(t.out) in {Tails(Tcp, f.log.done), Tails(Tcp, v.good)}
      && (f.a.state == Ready ==> v.good == f.log.done && Frames(t.out) == Tails(Tcp, v.good) && f.log.hdrs == Infos(v.good))
  {
    hide Frames, Closed, Tails, Infos, Judge, Open, Pending, Underway, AllClean, Formatter.Valid;
    Strips(f);
  }

  lemma FirstSegments(gs: seq<Segment>, done: seq<seq<byte>>, good: seq<seq<byte>>)
    requires AllSegments(gs) && good == Wholes(gs) && done <= good
    ensures AllSegments(gs[..|done|])
    ensures Tails(Tcp, good) == Payloads(gs) && Infos(good) == Fields(gs)
    ensures Tails(Tcp, done) == Payloads(gs[..|done|]) <= Payloads(gs) && Infos(done) == Fields(gs[..|done|])
    ensures forall n :: |done| <= n < |gs| ==> good[n] == Whole(gs[n])
  {
    hide Tails, Infos, Payloads, Fields, Whole, SegmentOk;
    var n := |done|;
    assert Wholes(gs[..n]) == done;
    CutSegments(gs[..n]);
    CutSegments(gs);
    CutsGrow(gs[..n], gs);
  }

  lemma FieldsAhead(gs: seq<Segment>, n: nat, ahead: bool, info: seq<byte>, hdrs: seq<seq<byte>>, part: seq<byte>)
    requires AllSegments(gs) && n <= |gs| && |info| == INFO && hdrs == Fields(gs[..n]) + Maybe(ahead, info)
    requires ahead ==> if n < |gs| then info <= Whole(gs[n]) else info <= part
    ensures hdrs <= Fields(gs) || (|hdrs| == |gs| + 1 && hdrs[..|gs|] == Fields(gs) && hdrs[|gs|] <= part)
  {
    hide Whole, SegmentOk;
    assert Fields(gs[..n]) == Fields(gs)[..n];
    if n < |gs| {
      HeadOf(gs[n]);
      assert ahead ==> info == Whole(gs[n])[..INFO];
    } else {
      assert gs[..n] == gs;
    }
  }

  /** The fields on offer or handed over ahead of the data are those of the frame under way. */
  lemma InfoIs(f: Formatter)
    requires f.Valid()
    ensures f.log.hdrs == Infos(f.log.done) + Maybe(f.a.h == HdrWaitFin && f.log.good, f.a.info) && |f.a.info| == INFO
    ensures var v := Judge(Tcp, Closed(f.log.t.inp));
      f.a.state != Ready && f.log.good ==>
        if f.a.state in {OutputLast, WaitFin} then |v.good| == |f.log.done| + 1 && f.a.info <= v.good[|f.log.done|]
        else v.good == f.log.done && f.a.info <= Pending(f.log.t.inp)
    ensures f.a.state == Ready ==> f.a.h != HdrWaitFin
  {
    hide Frames, Closed, Tails, Infos, Judge, Open, Payload, Skip, Total, Passes;
  }

  /** What `Step` asks of the input is met by every segment whose announced length is right,
      however it is cut into beats. */
  lemma SegmentsFit(sent: seq<Beat>, b: Beat, h: seq<Beat>, gs: seq<Segment>, B: nat)
    requires INFO <= B && sent + [b] <= h && Open(h) == [] && AllClean(h, B)
    requires AllSegments(gs) && Frames(h) == Wholes(gs)
    requires forall i :: 0 <= i < |gs| ==> Field16(gs[i].pseudo, 8) == |gs[i].hdr| + |gs[i].body|
    ensures OnBus(b, B) && Fits(Pending(sent), b, B)
  {
    hide Closed, Open, Frames, Payload, Pending, Fits, Whole, SegmentOk;
    var f := NextBeat(sent, b, h, B);
    FramesAre(h);
    var j :| 0 <= j < |Closed(h)| && Closed(h)[j] == f;
    assert Frames(h)[j] == Whole(gs[j]) == Payload(f);
    BeatFits(gs[j], Pending(sent), b, B);
  }

  lemma BeatFits(g: Segment, got: seq<byte>, b: Beat, B: nat)
    requires SegmentOk(g) && Field16(g.pseudo, 8) == |g.hdr| + |g.body| && INFO <= B && OnBus(b, B)
    requires if b.last then Whole(g) == got + Bytes(b) else got + b.data <= Whole(g) && |got| + B < |Whole(g)|
    ensures Fits(got, b, B)
  {
    var w, s := Whole(g), got + b.data;
    assert w == g.pseudo + (g.hdr + g.body);
    assert w[8] == g.pseudo[8] && w[9] == g.pseudo[9] && w[24] == g.hdr[12];
    assert s[..INFO] == w[..INFO] by {
      if b.last {
        assert s[..|w|] == w;
      }
    }
    assert s[8] == s[..INFO][8] && s[9] == s[..INFO][9] && s[24] == s[..INFO][24];
    assert w[8] == w[..INFO][8] && w[9] == w[..INFO][9] && w[24] == w[..INFO][24];
  }

  /** A segment without payload in one beat, its checksum field as given. */
  function Single(field: byte): (b: Beat) {
    Beat(seq(32, i => if i == 9 then 20 else if i == 11 then 6 else if i == 24 then 0x50 else if i == 29 then field else 0), true, 0)
  }

  lemma SingleFits(field: byte)
    ensures OnBus(Single(field), 32) && Fits([], Single(field), 32) && (Good(Tcp, Single(field).data) <==> field == 0)
  {
    var b := Single(field);
    assert [] + b.data == b.data;
    assert b.data[8] == 0 && b.data[9] == 20 && b.data[24] == 0x50;
    assert Field16(b.data, 8) == 20;
  }

  /** A pair of frames as the formatter may be given them: a bad frame of one beat, and the good
      frame that is lost with it. */
  lemma GoodFrameLost()
    ensures var f, g := [Single(1)], [Single(0)];
      && OnBus(f[0], 32) && Fits([], f[0], 32) && OnBus(g[0], 32) && Fits([], g[0], 32)
      && !Passes(Tcp, f) && Passes(Tcp, g)
      && GoodFrames(Tcp, [f, g]) == [Payload(g)] && Judge(Tcp, [f, g]).good == []
  {
    hide Single, Fits, Good, Payload, Judge, GoodFrames;
    SingleFits(0);
    SingleFits(1);
    PairLost(Tcp, [Single(1)], [Single(0)]);
  }
}
