/** The simulator's own checksum code, which the hardware is compared against. */
module SoftChecksum {
  import opened Streams
  import opened OnesComplement
  import opened Sealing
  import opened ChksumInsert
  import Tcp = TcpTx
  import Udp = UdpLoop

  /** The two folds and the truncation to 16 bits at the end of `csum`. */
  function Folded(sum: nat): (r: nat)
    ensures r <= ONES
  {
    var s1 := sum / 0x1_0000 + sum % 0x1_0000;
    var s2 := s1 + s1 / 0x1_0000;
    ONES - s2 % 0x1_0000
  }

  /** `csum`: a little-endian host reads 16-bit words, the last odd byte as a low byte. */
  method CSum(buf: seq<byte>) returns (answer: nat)
    ensures answer == Folded(LittleSum(buf))
  {
    hide LittleSum;
    var sum, pos, nbytes := 0, 0, |buf|;
    assert buf[0..] == buf;
    while nbytes > 1
      invariant 0 <= nbytes && pos + nbytes == |buf|
      invariant sum + LittleSum(buf[pos..]) == LittleSum(buf)
      decreases nbytes
    {
      NextWord(buf, pos);
      sum := sum + (buf[pos] as int + 256 * (buf[pos + 1] as int));
      pos := pos + 2;
      nbytes := nbytes - 2;
    }
    LastWord(buf, pos);
    if nbytes == 1 {
      sum := sum + buf[pos] as int;
    }
    var s1 := sum / 0x1_0000 + sum % 0x1_0000;
    var s2 := s1 + s1 / 0x1_0000;
    answer := ONES - s2 % 0x1_0000;
  }

  lemma NextWord(buf: seq<byte>, pos: nat)
    requires pos + 1 < |buf|
    ensures LittleSum(buf[pos..]) == buf[pos] as int + 256 * (buf[pos + 1] as int) + LittleSum(buf[pos + 2..])
  {
    assert buf[pos..][2..] == buf[pos + 2..];
  }

  lemma LastWord(buf: seq<byte>, pos: nat)
    requires |buf| - 1 <= pos <= |buf|
    ensures LittleSum(buf[pos..]) == if pos < |buf| then buf[pos] as int else 0
  {
  }

  /** What the first fold must satisfy for the second one to be the last. */
  predicate SettlesInTwo(sum: nat) {
    var s1 := sum / 0x1_0000 + sum % 0x1_0000;
    s1 / 0x1_0000 + s1 % 0x1_0000 <= ONES
  }

  /** A `long` sum of fewer than 2^31 bytes folds to the right value exactly when the
      second fold does not carry. */
  lemma FoldedIff(sum: nat)
    requires sum < 0x4000_0000 * 0x1_0000
    ensures Folded(sum) == ONES - Canon(sum) <==> SettlesInTwo(sum)
  {
    var q, r := sum / 0x1_0000, sum % 0x1_0000;
    var s1 := q + r;
    var h, l := s1 / 0x1_0000, s1 % 0x1_0000;
    LowBits(s1, h, l);
    FoldsAre(sum, q, r, h, l);
  }

  lemma LowBits(s1: nat, h: nat, l: nat)
    requires s1 == 0x1_0000 * h + l && l < 0x1_0000 && h < 0x8000
    ensures (s1 + h) % 0x1_0000 == if h + l <= ONES then h + l else h + l - 0x1_0000
  {
    if h + l <= ONES {
      assert s1 + h == 0x1_0000 * h + (h + l);
    } else {
      assert s1 + h == 0x1_0000 * (h + 1) + (h + l - 0x1_0000);
    }
  }

  /** Both folds keep the residue; a carry out of the second is what gets lost. */
  lemma FoldsAre(sum: nat, q: nat, r: nat, h: nat, l: nat)
    requires sum == 0x1_0000 * q + r && q + r == 0x1_0000 * h + l && l < 0x1_0000 && h < 0x8000
    ensures Canon(sum) == if h + l <= ONES then h + l else h + l - ONES
  {
    var t := h + l;
    assert sum == t + ONES * (q + h);
    if t <= ONES {
      CanonUnique(sum, t, q + h);
    } else {
      CanonUnique(sum, t - ONES, q + h + 1);
    }
  }

  /** Section 1 of RFC 1071 is met exactly then, and the two bytes stored are the ones
      the hardware writes into the frame. */
  lemma MeetsRfcIff(buf: seq<byte>)
    requires |buf| < 0x8000_0000
    ensures RfcChecksum(buf) == 256 * (Folded(LittleSum(buf)) % 256) + Folded(LittleSum(buf)) / 256 <==> SettlesInTwo(LittleSum(buf))
  {
    SumBound(buf);
    FoldedIff(LittleSum(buf));
    StoredChecksum(buf);
    hide LittleSum, RfcSum, Canon, SettlesInTwo;
    SwapInjective(Folded(LittleSum(buf)), ONES - Canon(LittleSum(buf)));
  }

  lemma SwapInjective(a: nat, b: nat)
    requires a <= ONES && b <= ONES
    ensures 256 * (a % 256) + a / 256 == 256 * (b % 256) + b / 256 <==> a == b
  {
    assert a == 256 * (a / 256) + a % 256 && b == 256 * (b / 256) + b % 256;
  }

  lemma {:induction false} SumBound(s: seq<byte>)
    ensures LittleSum(s) <= ONES * (|s| / 2) + (if |s| % 2 == 1 then 255 else 0)
  {
    if |s| >= 2 {
      SumBound(s[2..]);
    }
  }

  const LIMIT: nat := 131076

  lemma {:induction false} AllOnesSum(n: nat)
    ensures LittleSum(seq(2 * n, _ => 255)) == ONES * n
  {
    var s := seq(2 * n, _ => 255 as byte);
    if n > 0 {
      assert s[2..] == seq(2 * (n - 1), _ => 255);
      AllOnesSum(n - 1);
    }
  }

  /** The shortest buffer that `csum` gets wrong, padded with zeros to any length. */
  function Overflowing(n: nat): (s: seq<byte>)
    requires n > LIMIT
    ensures |s| == n
  {
    (seq(LIMIT, _ => 255) + [1]) + seq(n - LIMIT - 1, _ => 0)
  }

  lemma OverflowingSum(n: nat)
    requires n > LIMIT
    ensures LittleSum(Overflowing(n)) == 0x1_0000_0000 + 0xFFFF
  {
    var front := seq(LIMIT, _ => 255 as byte);
    AllOnesSum(LIMIT / 2);
    LittleSumConcat(front, [1]);
    LittleSumZeros(front + [1], n - LIMIT - 1);
  }

  /** `csum` is right on every buffer of a given size exactly up to 131076 bytes. */
  lemma RightUpTo(n: nat)
    requires n < 0x8000_0000
    ensures (forall buf: seq<byte> :: |buf| == n ==> Folded(LittleSum(buf)) == ONES - Canon(LittleSum(buf))) <==> n <= LIMIT
  {
    if n <= LIMIT {
      forall buf: seq<byte> | |buf| == n
        ensures Folded(LittleSum(buf)) == ONES - Canon(LittleSum(buf))
      {
        SumBound(buf);
        FoldedIff(LittleSum(buf));
      }
    } else {
      var bad := Overflowing(n);
      OverflowingSum(n);
      hide Overflowing, LittleSum;
      FoldedIff(LittleSum(bad));
    }
  }

  // ----- add_tcp_checksum -----

  /** `add_tcp_checksum`, in place on a segment whose header length field says 4 * doff. */
  method AddTcpChecksum(seg: array<byte>, payloadLen: nat, src: seq<byte>, dst: seq<byte>)
    requires seg.Length >= 20 && |src| == |dst| == 4
    requires seg.Length == 4 * (seg[12] as int / 16) + payloadLen
    modifies seg
    ensures var cleared := old(seg[..])[16 := 0][17 := 0];
      var c := Folded(LittleSum(Tcp.RfcPseudo(src, dst, seg.Length) + cleared));
      seg[..] == old(seg[..])[16 := LowByte(c)][17 := HighByte(c)]
  {
    var headerLen := 4 * (seg[12] as int / 16);
    var pseudogram := Tcp.RfcPseudo(src, dst, headerLen + payloadLen) + seg[..][16 := 0][17 := 0];
    var checksum := CSum(pseudogram);
    seg[16] := LowByte(checksum);
    seg[17] := HighByte(checksum);
  }

  /** For every segment the hardware can send, the software leaves in memory exactly the
      bytes that the hardware puts on the wire. */
  lemma AgreesWithHardware(g: Tcp.Segment, payload: seq<byte>)
    requires Tcp.SegmentOk(g) && |payload| == g.payloadLen
    ensures var seg := g.header + payload;
      var c := Folded(LittleSum(Tcp.RfcPseudo(g.src, g.dst, |seg|) + seg[16 := 0][17 := 0]));
      seg[16 := LowByte(c)][17 := HighByte(c)] == Tcp.OnWire(g, payload)
  {
    var seg := g.header + payload;
    var cleared := Tcp.Cleared(g.header) + payload;
    assert seg[16 := 0][17 := 0] == cleared;
    var whole := Tcp.RfcPseudo(g.src, g.dst, |seg|) + cleared;
    Tcp.WordLen(|seg|);
    SumBound(whole);
    FoldedIff(LittleSum(whole));
    StoredChecksum(whole);
    hide LittleSum, RfcSum, Canon, Udp.Word, Tcp.RfcPseudo;
    var c := Folded(LittleSum(whole));
    hide Folded;
    Bytes16(c, RfcChecksum(whole));
    var lo, hi := LowByte(c), HighByte(c);
    assert (g.header + payload)[16 := lo][17 := hi] == g.header[16 := lo][17 := hi] + payload;
  }

  lemma Bytes16(c: nat, d: int)
    requires c <= ONES && d == 256 * (c % 256) + c / 256
    ensures LowByte(c) == (d / 256) % 256 && HighByte(c) == d % 256
  {
  }
}
