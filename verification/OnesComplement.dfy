/** The Internet checksum of RFC 1071 and the arithmetic the hardware and the
    simulator's C++ code use to compute it. */
module OnesComplement {
  import opened Streams

  const ONES: nat := 65535

  /** One's complement addition of two 16-bit words: the carry comes back in at the bottom. */
  function Plus(a: nat, b: nat): nat {
    if a + b > ONES then a + b - ONES else a + b
  }

  /** Section 1 (1) of RFC 1071: adjacent octets paired into 16-bit words, an odd
      octet padded with zero, and the one's complement sum of the words. */
  function RfcSum(s: seq<byte>): nat {
    if s == [] then 0
    else if |s| == 1 then Plus(256 * (s[0] as int), 0)
    else Plus(256 * (s[0] as int) + s[1] as int, RfcSum(s[2..]))
  }

  /** Section 1 (2): the checksum is the complement of that sum. */
  function RfcChecksum(s: seq<byte>): int {
    ONES - RfcSum(s)
  }

  /** The plain integer sum of the words, most significant octet first. */
  function BigSum(s: seq<byte>): nat {
    if s == [] then 0
    else if |s| == 1 then 256 * (s[0] as int)
    else 256 * (s[0] as int) + s[1] as int + BigSum(s[2..])
  }

  /** The plain integer sum of the words, least significant octet first, which is
      what both the adder tree and a little-endian host add up. */
  function LittleSum(s: seq<byte>): nat {
    if s == [] then 0
    else if |s| == 1 then s[0] as int
    else s[0] as int + 256 * (s[1] as int) + LittleSum(s[2..])
  }

  /** The 16-bit representative of a sum: zero only for zero, otherwise 1..65535. */
  function Canon(x: nat): (r: nat)
    ensures r <= ONES && (r == 0 <==> x == 0)
  {
    if x == 0 then 0 else 1 + (x - 1) % ONES
  }

  function Swap(x: nat): nat {
    256 * (x % 256) + x / 256
  }

  /** `Canon` picks the only representative. */
  lemma CanonUnique(x: nat, y: nat, k: int)
    requires x == y + ONES * k && y <= ONES && (x == 0 <==> y == 0)
    ensures Canon(x) == y
  {
  }

  lemma CanonAdd(a: nat, b: nat)
    ensures Canon(a + Canon(b)) == Canon(a + b)
  {
  }

  lemma PlusCanon(a: nat, b: nat)
    requires a <= ONES && b <= ONES
    ensures Plus(a, b) == Canon(a + b)
  {
  }

  /** Carrying at every addition or once at the end comes to the same. */
  lemma {:induction false} RfcSumIsCanon(s: seq<byte>)
    ensures RfcSum(s) == Canon(BigSum(s))
  {
    if |s| == 1 {
      PlusCanon(256 * (s[0] as int), 0);
    } else if s != [] {
      var w := 256 * (s[0] as int) + s[1] as int;
      RfcSumIsCanon(s[2..]);
      PlusCanon(w, RfcSum(s[2..]));
      CanonAdd(w, BigSum(s[2..]));
    }
  }

  /** Modulo 65535, exchanging the octets of every word multiplies the sum by 256. */
  lemma {:induction false} SwapEveryWord(s: seq<byte>) returns (k: int)
    ensures BigSum(s) == 256 * LittleSum(s) + ONES * k
    ensures BigSum(s) == 0 <==> LittleSum(s) == 0
  {
    if |s| <= 1 {
      k := 0;
    } else {
      var j := SwapEveryWord(s[2..]);
      k := j - s[1] as int;
    }
  }

  /** Section 2 (B) of RFC 1071, byte order independence: the sum of the swapped
      words is the swapped sum. */
  lemma ByteOrderIndependence(s: seq<byte>)
    ensures Canon(BigSum(s)) == Swap(Canon(LittleSum(s)))
  {
    var k := SwapEveryWord(s);
    var l := LittleSum(s);
    var c := Canon(l);
    if l > 0 {
      var q := (l - 1) / ONES;
      assert l == c + ONES * q;
      assert Swap(c) == 256 * c - ONES * (c / 256);
      CanonUnique(BigSum(s), Swap(c), 256 * q + k + c / 256);
    }
  }

  /** The two octets stored when a little-endian complement `c` is written low
      octet first are the RFC 1071 checksum in network order. */
  lemma StoredChecksum(s: seq<byte>)
    ensures
      var c := ONES - Canon(LittleSum(s));
      RfcChecksum(s) == 256 * (c % 256) + c / 256
  {
    hide RfcSum, LittleSum, BigSum, Canon;
    RfcSumIsCanon(s);
    ByteOrderIndependence(s);
    SwapComplement(Canon(LittleSum(s)));
  }

  lemma SwapComplement(y: nat)
    requires y <= ONES
    ensures Swap(ONES - y) == ONES - Swap(y)
    ensures Swap(y) == ONES <==> y == ONES
  {
    var h, l := y / 256, y % 256;
    assert (ONES - y) / 256 == 255 - h && (ONES - y) % 256 == 255 - l;
  }

  lemma {:induction false} LittleSumConcat(a: seq<byte>, b: seq<byte>)
    requires |a| % 2 == 0
    ensures LittleSum(a + b) == LittleSum(a) + LittleSum(b)
  {
    if a == [] {
      assert a + b == b;
    } else {
      assert (a + b)[2..] == a[2..] + b;
      LittleSumConcat(a[2..], b);
    }
  }

  lemma {:induction false} LittleSumZeros(a: seq<byte>, n: nat)
    ensures LittleSum(a + seq(n, _ => 0)) == LittleSum(a)
    decreases |a| + n
  {
    if |a| >= 2 {
      assert (a + seq(n, _ => 0))[2..] == a[2..] + seq(n, _ => 0);
      LittleSumZeros(a[2..], n);
    } else if |a| == 1 {
      if n > 0 {
        var s := a + seq(n, _ => 0);
        assert s[2..] == seq(n - 1, _ => 0);
        assert [] + seq(n - 1, _ => 0) == seq(n - 1, _ => 0);
        LittleSumZeros([], n - 1);
      } else {
        assert a + seq(n, _ => 0) == a;
      }
    } else {
      assert a + seq(n, _ => 0) == seq(n, _ => 0);
      if n >= 2 {
        assert seq(n, _ => 0)[2..] == seq(n - 2, _ => 0);
        assert [] + seq(n - 2, _ => 0) == seq(n - 2, _ => 0);
        LittleSumZeros([], n - 2);
      }
    }
  }

  /** Overwriting one word changes the sum by the difference. */
  lemma {:induction false} LittleSumUpdate(s: seq<byte>, k: nat, x: byte, y: byte)
    requires k % 2 == 0 && k + 1 < |s|
    ensures LittleSum(s[k := x][k + 1 := y]) + s[k] as int + 256 * (s[k + 1] as int)
         == LittleSum(s) + x as int + 256 * (y as int)
  {
    var u := s[k := x][k + 1 := y];
    if k == 0 {
      assert u[2..] == s[2..];
    } else {
      assert u[2..] == s[2..][k - 2 := x][k - 1 := y];
      LittleSumUpdate(s[2..], k - 2, x, y);
    }
  }

  /** Section 1 (3): a frame verifies when summing it with its checksum in place
      gives all ones. For any frame that is not all zero, that is divisibility. */
  lemma PassesIff(s: seq<byte>)
    ensures ONES - Canon(LittleSum(s)) == 0 <==> LittleSum(s) > 0 && LittleSum(s) % ONES == 0
    ensures ONES - Canon(LittleSum(s)) == 0 <==> RfcSum(s) == ONES
  {
    hide RfcSum, LittleSum, BigSum, Swap;
    RfcSumIsCanon(s);
    ByteOrderIndependence(s);
    SwapComplement(Canon(LittleSum(s)));
  }

  /** Insert, then verify: writing the complement into a zeroed word of a frame
      that is not all zero makes the frame pass. */
  lemma InsertThenVerify(s: seq<byte>, k: nat, g: seq<byte>)
    requires k % 2 == 0 && k + 1 < |s|
    requires s[k] == 0 && s[k + 1] == 0 && LittleSum(s) > 0
    requires
      var c := ONES - Canon(LittleSum(s));
      g == s[k := c % 256][k + 1 := c / 256]
    ensures Canon(LittleSum(g)) == ONES
  {
    var l := LittleSum(s);
    var c := ONES - Canon(l);
    LittleSumUpdate(s, k, c % 256, c / 256);
    assert LittleSum(g) == l + c;
    CanonUnique(LittleSum(g), ONES, (l - 1) / ONES);
  }
}
