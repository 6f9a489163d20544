/** What the receive controllers make of the frames that leave a checksum engine: which pass,
    and what becomes of the frames behind one that does not. */
module Verdicts {
  import opened Streams

  datatype Kind = Eth | Tcp | Udp

  const BLOCK: nat := 20 // pseudo-header and UDP header

  /** The engine leaves zero in the checksum field exactly when the frame is good. */
  predicate FieldClear(s: seq<byte>) {
    BLOCK <= |s| && s[18] == 0 && s[19] == 0
  }

  /** The test on the first beat of a frame; the Ethernet formatter checks nothing. */
  predicate Good(k: Kind, first: seq<byte>) {
    match k
    case Eth => true
    case Tcp => 32 <= |first| && first[28] == 0 && first[29] == 0
    case Udp => FieldClear(first)
  }

  predicate Passes(k: Kind, f: seq<Beat>) {
    f != [] && Good(k, f[0].data)
  }

  lemma OpenFirst(k: Kind, o: seq<Beat>, b: Beat)
    ensures Passes(k, o + [b]) == if o == [] then Good(k, b.data) else Passes(k, o)
  {
    if o == [] { assert o + [b] == [b]; }
  }

  /** What becomes of a list of frames. A bad frame of a single beat makes the controller drop
      the next frame as well: it waits for one more last beat. */
  datatype Verdict = Verdict(good: seq<seq<byte>>, skip: bool)

  function Judge(k: Kind, fs: seq<seq<Beat>>): Verdict {
    if fs == [] then Verdict([], false)
    else
      var v, f := Judge(k, fs[..|fs| - 1]), fs[|fs| - 1];
      if v.skip then v.(skip := false)
      else if Passes(k, f) then v.(good := v.good + [Payload(f)])
      else v.(skip := |f| == 1)
  }

  lemma PushJudge(k: Kind, fs: seq<seq<Beat>>, f: seq<Beat>)
    ensures
      var v := Judge(k, fs);
      Judge(k, fs + [f]) == if v.skip then v.(skip := false)
                            else if Passes(k, f) then v.(good := v.good + [Payload(f)])
                            else v.(skip := |f| == 1)
  {
    assert (fs + [f])[..|fs|] == fs;
  }

  /** The frames whose checksum is right. */
  function GoodFrames(k: Kind, fs: seq<seq<Beat>>): seq<seq<byte>> {
    if fs == [] then []
    else
      var f := fs[|fs| - 1];
      GoodFrames(k, fs[..|fs| - 1]) + if Passes(k, f) then [Payload(f)] else []
  }

  ghost predicate NoBadSingle(k: Kind, fs: seq<seq<Beat>>) {
    forall i :: 0 <= i < |fs| ==> Passes(k, fs[i]) || |fs[i]| != 1
  }

  lemma {:induction false} JudgeIsGood(k: Kind, fs: seq<seq<Beat>>)
    requires NoBadSingle(k, fs)
    ensures Judge(k, fs) == Verdict(GoodFrames(k, fs), false)
  {
    if fs != [] {
      JudgeIsGood(k, fs[..|fs| - 1]);
      assert Passes(k, fs[|fs| - 1]) || |fs[|fs| - 1]| != 1;
    }
  }

  /** Dropping a frame leaves the next good frame alone if and only if the dropped
      frame had more than one beat. */
  lemma DropIsLocal(k: Kind, fs: seq<seq<Beat>>, f: seq<Beat>, g: seq<Beat>)
    requires NoBadSingle(k, fs) && Passes(k, g)
    ensures Judge(k, fs + [f] + [g]).good == GoodFrames(k, fs + [f] + [g]) <==> (Passes(k, f) || |f| != 1)
  {
    hide Passes, Payload, Judge, GoodFrames, NoBadSingle;
    JudgeIsGood(k, fs);
    PushJudge(k, fs, f);
    PushJudge(k, fs + [f], g);
    PushGoodFrame(k, fs, f);
    PushGoodFrame(k, fs + [f], g);
  }

  lemma PushGoodFrame(k: Kind, fs: seq<seq<Beat>>, f: seq<Beat>)
    ensures GoodFrames(k, fs + [f]) == GoodFrames(k, fs) + if Passes(k, f) then [Payload(f)] else []
  {
    assert (fs + [f])[..|fs|] == fs;
  }

  lemma NoFrames(k: Kind)
    ensures Judge(k, []) == Verdict([], false) && GoodFrames(k, []) == []
  {
  }

  /** The verdict on such a pair. */
  lemma PairLost(k: Kind, f: seq<Beat>, g: seq<Beat>)
    requires !Passes(k, f) && |f| == 1 && Passes(k, g)
    ensures GoodFrames(k, [f, g]) == [Payload(g)] && Judge(k, [f, g]).good == []
  {
    hide Payload, Passes, Judge, GoodFrames;
    NoFrames(k);
    PushJudge(k, [], f);
    PushJudge(k, [f], g);
    PushGoodFrame(k, [], f);
    PushGoodFrame(k, [f], g);
    assert [] + [f] == [f] && [f] + [g] == [f, g];
  }
}
