/** The checksum engine seen as a function on byte frames: it seals every frame
    with its own RFC 1071 checksum. */
module Sealing {
  import opened Streams
  import opened Parsing
  import opened OnesComplement
  import opened ChksumSpec
  import opened ChksumInsert
  import opened ChksumEngine

  /** A frame with its checksum written at byte `k`. */
  function Sealed(p: seq<byte>, k: nat): (g: seq<byte>)
    ensures |g| == |p|
  {
    if k + 1 < |p| then
      var c := ONES - Canon(LittleSum(p));
      p[k := LowByte(c)][k + 1 := HighByte(c)]
    else p
  }

  function SealAll(ps: seq<seq<byte>>, k: nat): seq<seq<byte>> {
    if ps == [] then [] else SealAll(ps[..|ps| - 1], k) + [Sealed(ps[|ps| - 1], k)]
  }

  lemma {:induction false} SealAllAt(ps: seq<seq<byte>>, k: nat)
    ensures |SealAll(ps, k)| == |ps|
    ensures forall j :: 0 <= j < |ps| ==> SealAll(ps, k)[j] == Sealed(ps[j], k)
  {
    if ps != [] { SealAllAt(ps[..|ps| - 1], k); }
  }

  /** Into a zeroed field at an even position goes the RFC 1071 checksum, in network order. */
  lemma SealIsRfc(p: seq<byte>, k: nat)
    requires k + 1 < |p|
    ensures Field16(Sealed(p, k), k) == RfcChecksum(p)
    ensures forall i :: 0 <= i < |p| && i != k && i != k + 1 ==> Sealed(p, k)[i] == p[i]
  {
    hide LittleSum, RfcSum, Canon;
    StoredChecksum(p);
  }

  /** A receiver that sums a sealed frame gets all ones: sealing again writes zero. */
  lemma SealTwice(p: seq<byte>, k: nat)
    requires k % 2 == 0 && k + 1 < |p| && p[k] == 0 && p[k + 1] == 0 && LittleSum(p) > 0
    ensures Sealed(Sealed(p, k), k) == p
    ensures RfcSum(Sealed(p, k)) == ONES
  {
    var c := ONES - Canon(LittleSum(p));
    var g := Sealed(p, k);
    assert g == p[k := c % 256][k + 1 := c / 256];
    InsertThenVerify(p, k, g);
    PassesIff(g);
    hide LittleSum, RfcSum, Canon;
    assert LowByte(0) == 0 && HighByte(0) == 0;
    assert g[k := 0][k + 1 := 0] == p;
  }

  lemma {:induction false} EvenLanes(n: nat, B: nat)
    requires B % 2 == 0
    ensures Lanes(n, B) % 2 == 0
  {
    NextLanes(0, B);
    if n > 0 {
      NextLanes(n - 1, B);
      hide Lanes;
      EvenLanes(n - 1, B);
    }
  }

  /** Full beats: the engine's word total is the word sum of the bytes. */
  lemma {:induction false} WordsOfPart(part: seq<Beat>, B: nat)
    requires AllClean(part, B) && NoLast(part) && B % 2 == 0
    ensures WordTotal(part) == LittleSum(Payload(part))
  {
    if part != [] {
      var init, b := part[..|part| - 1], part[|part| - 1];
      assert part == init + [b];
      WordsOfPart(init, B);
      FullBeats(init, B);
      EvenLanes(|init|, B);
      hide LittleSum, WordTotal, Payload, Lanes;
      PushWord(init, b);
      PushPayload(init, b);
      LittleSumConcat(Payload(init), Bytes(b));
      assert Clean(b, B) && Kept(b) == b.data == Bytes(b);
    }
  }

  /** The same for a whole frame: the dropped byte lanes of the last beat count as zero. */
  lemma WordsOfFrame(f: seq<Beat>, B: nat)
    requires AllClean(f, B) && Proper(f) && B % 2 == 0
    ensures WordTotal(f) == LittleSum(Payload(f))
  {
    var init, b := f[..|f| - 1], f[|f| - 1];
    assert f == init + [b];
    WordsOfPart(init, B);
    FullBeats(init, B);
    EvenLanes(|init|, B);
    hide LittleSum, WordTotal, Payload, Lanes;
    PushWord(init, b);
    PushPayload(init, b);
    LittleSumConcat(Payload(init), Bytes(b));
    assert Clean(b, B) && Kept(b) == Bytes(b) + seq(b.pad, _ => 0);
    LittleSumZeros(Bytes(b), b.pad);
  }

  lemma PatchOutside(b: Beat, at: nat, e: Entry)
    requires e.cmd.offset + 1 < at
    ensures PatchedBeat(b, at, e) == b
  {
    assert PatchedBeat(b, at, e).data == b.data;
  }

  /** A field inside the first beat leaves all other beats alone. */
  lemma {:induction false} PatchFirst(f: seq<Beat>, e: Entry, B: nat)
    requires f != [] && e.cmd.offset + 1 < B
    ensures PatchedFrame(f, e, B) == [PatchedBeat(f[0], 0, e)] + f[1..]
  {
    var n := |f| - 1;
    assert Lanes(0, B) == 0;
    if n == 0 {
      assert PatchedFrame(f[..0], e, B) == [];
    } else {
      PatchFirst(f[..n], e, B);
      BeyondFirst(n, B);
      PatchOutside(f[n], Lanes(n, B), e);
      assert f[1..] == f[..n][1..] + [f[n]];
    }
  }

  lemma {:induction false} BeyondFirst(n: nat, B: nat)
    requires n > 0
    ensures B <= Lanes(n, B)
  {
    if n > 1 { BeyondFirst(n - 1, B); }
    NextLanes(n - 1, B);
  }

  /** The two lanes of the field are bytes k and k + 1 of the first beat. */
  lemma PatchBytes(b: Beat, e: Entry, B: nat, k: nat)
    requires OnBus(b, B) && e.cmd.enable && k + 2 + e.cmd.offset == B
    requires k + 1 < |Bytes(b)|
    ensures Bytes(PatchedBeat(b, 0, e)) == Bytes(b)[k := LowByte(e.csum)][k + 1 := HighByte(e.csum)]
  {
    hide LowByte, HighByte;
    var x := PatchedBeat(b, 0, e);
    assert |x.data| == B;
    assert x.data == b.data[k := LowByte(e.csum)][k + 1 := HighByte(e.csum)];
  }

  lemma UpdateFront(a: seq<byte>, b: seq<byte>, k: nat, lo: byte, hi: byte)
    requires k + 1 < |a|
    ensures (a + b)[k := lo][k + 1 := hi] == a[k := lo][k + 1 := hi] + b
  {
  }

  lemma FirstIsLong(x: Beat, rest: seq<Beat>, B: nat, k: nat)
    requires AllClean([x] + rest, B) && Proper([x] + rest)
    requires k + 1 < B && k + 1 < |Payload([x] + rest)|
    ensures OnBus(x, B) && k + 1 < |Bytes(x)|
  {
    assert Clean(([x] + rest)[0], B);
    if rest == [] {
      assert [x] + rest == [x];
      OneBeat(x);
    } else {
      assert !([x] + rest)[0].last;
    }
  }

  lemma PatchedPayload(x: Beat, rest: seq<Beat>, e: Entry, B: nat, k: nat)
    requires OnBus(x, B) && k + 1 < |Bytes(x)| && e.cmd.enable && k + 2 + e.cmd.offset == B
    requires k + 1 < |Payload([x] + rest)|
    ensures Payload(PatchedFrame([x] + rest, e, B))
         == Payload([x] + rest)[k := LowByte(e.csum)][k + 1 := HighByte(e.csum)]
  {
    var y := PatchedBeat(x, 0, e);
    assert ([x] + rest)[1..] == rest && ([x] + rest)[0] == x;
    hide LowByte, HighByte, PatchedFrame, PatchedBeat, Payload, Bytes;
    PatchFirst([x] + rest, e, B);
    PayloadSplit([x], rest);
    PayloadSplit([y], rest);
    OneBeat(x);
    OneBeat(y);
    PatchBytes(x, e, B, k);
    UpdateFront(Bytes(x), Payload(rest), k, LowByte(e.csum), HighByte(e.csum));
  }

  lemma SealedFrame(f: seq<Beat>, cmd: Cmd, B: nat, k: nat)
    requires AllClean(f, B) && Proper(f) && B % 2 == 0
    requires cmd.enable && k + 2 + cmd.offset == B && k + 1 < |Payload(f)|
    ensures Payload(PatchedFrame(f, Entry(Checksum(f), cmd), B)) == Sealed(Payload(f), k)
  {
    var e, x, rest := Entry(Checksum(f), cmd), f[0], f[1..];
    assert f == [x] + rest;
    hide LowByte, HighByte, LittleSum, WordTotal, PatchedFrame, Payload, Bytes, Canon;
    WordsOfFrame(f, B);
    FirstIsLong(x, rest, B, k);
    PatchedPayload(x, rest, e, B, k);
  }

  lemma OneBeat(b: Beat)
    ensures Payload([b]) == Bytes(b)
  {
    assert [b][..0] == [];
  }

  /** Patching changes no beat's shape. */
  lemma {:induction false} PatchedShape(f: seq<Beat>, e: Entry, B: nat)
    ensures |PatchedFrame(f, e, B)| == |f|
    ensures forall i :: 0 <= i < |f| ==>
      var p := PatchedFrame(f, e, B)[i];
      p.last == f[i].last && p.pad == f[i].pad && |p.data| == |f[i].data|
  {
    if f != [] { PatchedShape(f[..|f| - 1], e, B); }
  }

  lemma PatchedProper(f: seq<Beat>, e: Entry, B: nat)
    requires Proper(f) && AllClean(f, B)
    ensures Proper(PatchedFrame(f, e, B)) && AllClean(PatchedFrame(f, e, B), B)
  {
    PatchedShape(f, e, B);
    var g := PatchedFrame(f, e, B);
    forall i | 0 <= i < |g| ensures Clean(g[i], B) { assert Clean(f[i], B); }
  }

  /** Each result belongs to its own frame. */
  lemma {:induction false} ResultsAre(fed: seq<Tagged>, cmd: Cmd)
    requires forall i :: 0 <= i < |fed| ==> fed[i].cmd == cmd
    ensures |Results(fed)| == |Closed(Beats(fed))|
    ensures forall j :: 0 <= j < |Results(fed)| ==> Results(fed)[j] == Entry(Checksum(Closed(Beats(fed))[j]), cmd)
  {
    if fed != [] {
      var init, x := fed[..|fed| - 1], fed[|fed| - 1];
      assert fed == init + [x];
      ResultsAre(init, cmd);
      hide Results, Beats, Closed, Open, Checksum;
      PushTagged(init, x);
      Push(Beats(init), x.beat);
    }
  }

  /** `h` is the frames `fs`, all finished, each sealed. */
  ghost predicate SealedHistory(h: seq<Beat>, fs: seq<seq<Beat>>, B: nat, k: nat) {
    && Open(h) == [] && AllClean(h, B) && |Closed(h)| == |fs|
    && forall j :: 0 <= j < |fs| ==> Payload(Closed(h)[j]) == Sealed(Payload(fs[j]), k)
  }

  lemma SealOneMore(h: seq<Beat>, fs: seq<seq<Beat>>, f: seq<Beat>, g: seq<Beat>, B: nat, k: nat)
    requires SealedHistory(h, fs, B, k)
    requires Proper(g) && AllClean(g, B) && Payload(g) == Sealed(Payload(f), k)
    ensures SealedHistory(h + g, fs + [f], B, k)
  {
    hide Open, Closed, Payload, Sealed, Proper, Clean;
    AppendFrame(h, g);
  }

  ghost predicate Sealable(f: seq<Beat>, B: nat, k: nat) {
    Proper(f) && AllClean(f, B) && k + 1 < |Payload(f)|
  }

  /** Every frame can be sealed and has its own checksum as entry. */
  ghost predicate Matching(fs: seq<seq<Beat>>, es: seq<Entry>, cmd: Cmd, B: nat, k: nat) {
    && |fs| <= |es|
    && forall j :: 0 <= j < |fs| ==> Sealable(fs[j], B, k) && es[j] == Entry(Checksum(fs[j]), cmd)
  }

  lemma MatchingLast(init: seq<seq<Beat>>, f: seq<Beat>, es: seq<Entry>, cmd: Cmd, B: nat, k: nat)
    requires Matching(init + [f], es, cmd, B, k)
    ensures |init| < |es| && Matching(init, es, cmd, B, k)
    ensures Sealable(f, B, k) && es[|init|] == Entry(Checksum(f), cmd)
  {
    hide Sealable, Checksum;
    var fs := init + [f];
    assert fs[|init|] == f;
    forall j | 0 <= j < |init| ensures Sealable(init[j], B, k) && es[j] == Entry(Checksum(init[j]), cmd) {
      assert fs[j] == init[j];
    }
  }

  lemma NothingSealed(es: seq<Entry>, B: nat, k: nat)
    ensures PatchedAll([], es, B) == [] && SealedHistory([], [], B, k)
  {
  }

  /** The outcome of proper frames is proper frames, sealed one by one. */
  lemma {:induction false} OutcomeOf(fs: seq<seq<Beat>>, es: seq<Entry>, cmd: Cmd, B: nat, k: nat)
    requires B % 2 == 0 && cmd.enable && k + 2 + cmd.offset == B
    requires |fs| <= |es| && Matching(fs, es, cmd, B, k)
    ensures SealedHistory(PatchedAll(fs, es, B), fs, B, k)
  {
    hide SealedHistory, Sealable, Checksum, PatchedAll, PatchedFrame, Matching, Payload, Proper, AllClean, Sealed;
    NothingSealed(es, B, k);
    if fs != [] {
      var n := |fs| - 1;
      var init, f := fs[..n], fs[n];
      assert fs == init + [f];
      MatchingLast(init, f, es, cmd, B, k);
      OutcomeOf(init, es, cmd, B, k);
      PushFrame(init, f, es, B);
      SealOneMore(PatchedAll(init, es, B), init, f, PatchedFrame(f, es[n], B), B, k) by {
        SealThis(f, cmd, B, k);
      }
    }
  }

  lemma SealThis(f: seq<Beat>, cmd: Cmd, B: nat, k: nat)
    requires Sealable(f, B, k) && B % 2 == 0 && cmd.enable && k + 2 + cmd.offset == B
    ensures
      var g := PatchedFrame(f, Entry(Checksum(f), cmd), B);
      Proper(g) && AllClean(g, B) && Payload(g) == Sealed(Payload(f), k)
  {
    hide Checksum, PatchedFrame, Payload, Proper, AllClean, Sealed;
    PatchedProper(f, Entry(Checksum(f), cmd), B);
    SealedFrame(f, cmd, B, k);
  }

  /** The engine, fed clean frames under one command, owes each frame sealed. */
  lemma EngineSeals(fed: seq<Tagged>, cmd: Cmd, B: nat, k: nat)
    requires forall i :: 0 <= i < |fed| ==> fed[i].cmd == cmd
    requires AllClean(Beats(fed), B) && B % 2 == 0
    requires forall j :: 0 <= j < |Frames(Beats(fed))| ==> k + 1 < |Frames(Beats(fed))[j]|
    requires cmd.enable && k + 2 + cmd.offset == B
    ensures
      var h := Outcome(fed, B);
      && Open(h) == [] && AllClean(h, B)
      && Frames(h) == SealAll(Frames(Beats(fed)), k)
  {
    hide Beats, Open, Closed, Frames, Payload, Results, PatchedAll, SealAll, Sealed, Checksum;
    var fs := Closed(Beats(fed));
    ResultsAre(fed, cmd);
    HistoryProper(Beats(fed));
    HistoryClean(Beats(fed), B);
    FramesAre(Beats(fed));
    forall j | 0 <= j < |fs| ensures Sealable(fs[j], B, k) {
      assert k + 1 < |Frames(Beats(fed))[j]|;
    }
    OutcomeOf(fs, Results(fed), cmd, B, k);
    FramesAre(Outcome(fed, B));
    SealAllAt(Frames(Beats(fed)), k);
  }
}
