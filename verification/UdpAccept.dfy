/** Which frames the receive paths accept, told from the bytes of the frames alone. */
module UdpAccept {
  import opened Streams
  import opened Parsing
  import opened OnesComplement
  import opened Sealing
  import opened Verdicts
  import opened UdpRxOutput
  import I = ChksumInsert

  /** The engine leaves zero in the checksum field exactly when the RFC 1071 sum of the
      frame, checksum included, is all ones. */
  lemma FieldIff(f: seq<byte>, k: nat)
    requires k + 1 < |f|
    ensures |Sealed(f, k)| == |f| && (Sealed(f, k)[k] == 0 && Sealed(f, k)[k + 1] == 0 <==> RfcSum(f) == ONES)
  {
    var c := ONES - Canon(LittleSum(f));
    var g := Sealed(f, k);
    assert g[k] == I.LowByte(c) && g[k + 1] == I.HighByte(c);
    hide LittleSum, RfcSum, Canon, Sealed, I.LowByte, I.HighByte;
    PassesIff(f);
    ZeroBytes(c);
  }

  lemma TestsAre(g: seq<byte>)
    ensures BLOCK <= |g| ==> (FieldClear(g) <==> g[18] == 0 && g[19] == 0)
    ensures 32 <= |g| ==> (Good(Tcp, g) <==> g[28] == 0 && g[29] == 0)
  {
  }

  /** The UDP and the TCP receive controller test just that. */
  lemma ClearedIff(f: seq<byte>)
    requires BLOCK <= |f|
    ensures FieldClear(Sealed(f, 18)) <==> RfcSum(f) == ONES
    ensures 32 <= |f| ==> (Good(Tcp, Sealed(f, 28)) <==> RfcSum(f) == ONES)
  {
    hide Sealed, RfcSum, FieldClear, Good;
    FieldIff(f, 18);
    TestsAre(Sealed(f, 18));
    if 32 <= |f| {
      FieldIff(f, 28);
      TestsAre(Sealed(f, 28));
    }
  }

  lemma ZeroBytes(c: nat)
    requires c <= ONES
    ensures I.LowByte(c) == 0 && I.HighByte(c) == 0 <==> c == 0
  {
  }

  /** The test on the first beat is a test on the bytes of the frame. */
  lemma PassesByBytes(f: seq<Beat>, B: nat)
    requires Proper(f) && AllClean(f, B) && BLOCK < B && BLOCK <= |Payload(f)|
    ensures Passes(Udp, f) <==> FieldClear(Payload(f))
    ensures 32 <= B && 32 <= |Payload(f)| ==> (Passes(Tcp, f) <==> Good(Tcp, Payload(f)))
  {
    hide Payload;
    assert f == [f[0]] + f[1..] && Clean(f[0], B);
    PayloadSplit([f[0]], f[1..]);
    OneBeat(f[0]);
    if |f| == 1 {
      assert f[1..] == [];
      NoPayload();
      assert Payload(f) == Bytes(f[0]);
    } else {
      assert !f[0].last;
    }
  }

  /** A frame has one beat exactly when its bytes fit on the bus. */
  lemma OneBeatByBytes(f: seq<Beat>, B: nat)
    requires Proper(f) && AllClean(f, B) && B > 0
    ensures |f| == 1 <==> |Payload(f)| <= B
  {
    hide Payload;
    assert f == [f[0]] + f[1..] && Clean(f[0], B);
    PayloadSplit([f[0]], f[1..]);
    OneBeat(f[0]);
    if |f| == 1 {
      assert f[1..] == [];
      NoPayload();
    } else {
      assert !f[0].last;
      NonEmpty(f[1..], B);
    }
  }

  /** What the receive path makes of a list of frames, by their sums and lengths: a frame whose
      sum is all ones is delivered, with its checksum field cleared; any other is dropped, and
      if it fits in one beat the next frame with it. */
  function Deemed(fs: seq<seq<byte>>, B: nat): Verdict {
    if fs == [] then Verdict([], false)
    else
      var v, f := Deemed(fs[..|fs| - 1], B), fs[|fs| - 1];
      if v.skip then v.(skip := false)
      else if RfcSum(f) == ONES then v.(good := v.good + [Sealed(f, 18)])
      else v.(skip := |f| <= B)
  }

  /** On the frames that leave the engine, the receiver's verdict is that one. */
  lemma {:induction false} JudgeIsDeemed(cs: seq<seq<Beat>>, fs: seq<seq<byte>>, B: nat)
    requires |cs| == |fs| && BLOCK < B && AllProper(cs)
    requires forall j :: 0 <= j < |fs| ==> AllClean(cs[j], B) && BLOCK <= |fs[j]| && Payload(cs[j]) == Sealed(fs[j], 18)
    ensures Judge(Udp, cs) == Deemed(fs, B)
  {
    hide Payload, Sealed, RfcSum, Passes, FieldClear, AllClean, Proper;
    if fs != [] {
      var n := |fs| - 1;
      JudgeIsDeemed(cs[..n], fs[..n], B);
      PassesByBytes(cs[n], B);
      OneBeatByBytes(cs[n], B);
      ClearedIff(fs[n]);
    }
  }

  lemma {:induction false} DeemedGrow(a: seq<seq<byte>>, b: seq<seq<byte>>, B: nat)
    requires a <= b
    ensures Deemed(a, B).good <= Deemed(b, B).good
    decreases |b|
  {
    if a != b {
      assert a <= b[..|b| - 1];
      DeemedGrow(a, b[..|b| - 1], B);
    }
  }

  /** The frames whose sum is all ones, each with its checksum field cleared. */
  function Right(fs: seq<seq<byte>>): seq<seq<byte>> {
    if fs == [] then []
    else
      var f := fs[|fs| - 1];
      Right(fs[..|fs| - 1]) + if RfcSum(f) == ONES then [Sealed(f, 18)] else []
  }

  /** Nothing but right frames is ever delivered. */
  lemma {:induction false} OnlyRight(fs: seq<seq<byte>>, B: nat)
    ensures forall g :: g in Deemed(fs, B).good ==> exists j :: 0 <= j < |fs| && RfcSum(fs[j]) == ONES && g == Sealed(fs[j], 18)
    ensures |Deemed(fs, B).good| <= |Right(fs)|
  {
    hide RfcSum, Sealed;
    if fs != [] {
      var n := |fs| - 1;
      OnlyRight(fs[..n], B);
      forall g | g in Deemed(fs, B).good
        ensures exists j :: 0 <= j < |fs| && RfcSum(fs[j]) == ONES && g == Sealed(fs[j], 18)
      {
        if g in Deemed(fs[..n], B).good {
          var j :| 0 <= j < n && RfcSum(fs[..n][j]) == ONES && g == Sealed(fs[..n][j], 18);
          assert fs[..n][j] == fs[j];
        } else {
          assert g == Sealed(fs[n], 18);
        }
      }
    }
  }

  /** Without wrong frames of one beat, every right frame is delivered. */
  lemma {:induction false} EveryRight(fs: seq<seq<byte>>, B: nat)
    requires forall j :: 0 <= j < |fs| ==> RfcSum(fs[j]) == ONES || |fs[j]| > B
    ensures Deemed(fs, B) == Verdict(Right(fs), false)
  {
    hide RfcSum, Sealed;
    if fs != [] {
      EveryRight(fs[..|fs| - 1], B);
    }
  }
}
