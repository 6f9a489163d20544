/** The adder tree of the checksum engine: pairs of 16-bit words, then pairs of
    lanes, each level one bit wider and half as long. */
module AdderTree {
  import opened Streams
  import opened OnesComplement

  function Pow2(n: nat): (p: nat)
    ensures p > 0
  {
    if n == 0 then 1 else 2 * Pow2(n - 1)
  }

  /** Level 0: each lane adds the two 16-bit words of four bytes. Lanes run from
      the low end of the bus word, and in a word the lower byte lane is the more
      significant. */
  function WordLanes(m: seq<byte>): seq<nat> {
    if |m| < 4 then []
    else
      var n := |m|;
      [LaneOf(m[n - 4..])] + WordLanes(m[..n - 4])
  }

  function LaneOf(t: seq<byte>): nat
    requires |t| == 4
  {
    (256 * (t[3] as int) + t[2] as int) + (256 * (t[1] as int) + t[0] as int)
  }

  /** A further level: neighbouring lanes added into lanes of `width` bits. */
  function Pairs(lanes: seq<nat>, width: nat): seq<nat> {
    if |lanes| < 2 then []
    else [(lanes[0] + lanes[1]) % Pow2(width)] + Pairs(lanes[2..], width)
  }

  predicate FitIn(lanes: seq<nat>, width: nat) {
    forall i :: 0 <= i < |lanes| ==> lanes[i] < Pow2(width)
  }

  function Total(lanes: seq<nat>): nat {
    if lanes == [] then 0 else lanes[0] + Total(lanes[1..])
  }

  lemma Pow2of17()
    ensures Pow2(17) == 131072
  {
    assert Pow2(8) == 256;
    assert Pow2(12) == 16 * Pow2(8);
    assert Pow2(16) == 16 * Pow2(12);
  }

  /** Level 0 loses nothing: the lanes add up to the little-endian word sum. */
  lemma {:induction false} LanesTotal(m: seq<byte>, k: nat)
    requires |m| == 4 * k
    ensures |WordLanes(m)| == k
    ensures Total(WordLanes(m)) == LittleSum(m)
    ensures FitIn(WordLanes(m), 17)
  {
    if k == 0 {
      assert LittleSum([]) == 0;
    } else {
      var n := |m|;
      var rest, top := m[..n - 4], m[n - 4..];
      var l := LaneOf(top);
      assert WordLanes(m) == [l] + WordLanes(rest);
      hide WordLanes, LittleSum, Total, FitIn, Pow2, LaneOf;
      LanesTotal(rest, k - 1);
      assert m == rest + top;
      LittleSumConcat(rest, top);
      FourBytes(top);
      Prepend(l, WordLanes(rest), 17);
    }
  }

  lemma Prepend(l: nat, lanes: seq<nat>, width: nat)
    requires l < Pow2(width) && FitIn(lanes, width)
    ensures Total([l] + lanes) == l + Total(lanes) && FitIn([l] + lanes, width)
  {
    hide Pow2;
    assert ([l] + lanes)[1..] == lanes;
  }

  lemma SmallMod(x: nat, m: nat)
    requires x < m
    ensures x % m == x
  {
  }

  lemma FourBytes(t: seq<byte>)
    requires |t| == 4
    ensures LittleSum(t) == LaneOf(t) < Pow2(17)
  {
    Pow2of17();
    assert t[2..][2..] == [];
    assert LittleSum(t[2..]) == t[2] as int + 256 * (t[3] as int) + LittleSum(t[2..][2..]);
  }

  /** No lane overflows its declared width, so a level keeps the total. */
  lemma {:induction false} PairsTotal(lanes: seq<nat>, width: nat)
    requires |lanes| % 2 == 0 && width > 0 && FitIn(lanes, width - 1)
    ensures |Pairs(lanes, width)| == |lanes| / 2
    ensures Total(Pairs(lanes, width)) == Total(lanes)
    ensures FitIn(Pairs(lanes, width), width)
  {
    if lanes != [] {
      var s := lanes[0] + lanes[1];
      assert Pow2(width) == 2 * Pow2(width - 1);
      hide Pow2;
      SmallMod(s, Pow2(width));
      PairsTotal(lanes[2..], width);
      assert lanes[1..][1..] == lanes[2..];
      Prepend(s, Pairs(lanes[2..], width), width);
    }
  }

  /** The accumulator: add, fold the carries back twice, in a register of
      16 + levels bits. */
  function Accumulate(lane: nat, acc: nat, levels: nat): nat {
    Fold((lane + acc) % Pow2(16 + levels))
  }

  function Fold(x: nat): nat {
    var t := x % 65536 + x / 65536;
    t % 65536 + (t / 65536) % 2
  }

  /** The double fold is exact: it is one's complement addition. */
  lemma AccumulateIsCanon(lane: nat, acc: nat, levels: nat)
    requires 0 < levels <= 16 && lane < Pow2(15 + levels) && acc <= ONES
    ensures Accumulate(lane, acc, levels) == Canon(lane + acc)
  {
    hide Pow2, Canon, Fold;
    PowBounds(levels);
    SmallMod(lane + acc, Pow2(16 + levels));
    FoldTwice(lane + acc);
  }

  lemma {:induction false} PowBounds(levels: nat)
    requires 0 < levels <= 16
    ensures 65536 <= Pow2(15 + levels) && Pow2(16 + levels) == 2 * Pow2(15 + levels) <= 0x1_0000_0000
  {
    Pow2of17();
    if levels > 1 {
      PowBounds(levels - 1);
      PowMonotone(16 + levels, 32);
      PowThirtyTwo();
    }
  }

  lemma PowThirtyTwo()
    ensures Pow2(32) == 0x1_0000_0000
  {
    Pow2of17();
    assert Pow2(20) == 8 * Pow2(17);
    assert Pow2(24) == 16 * Pow2(20);
    assert Pow2(28) == 16 * Pow2(24);
    assert Pow2(32) == 16 * Pow2(28);
  }

  lemma {:induction false} PowMonotone(a: nat, b: nat)
    requires a <= b
    ensures Pow2(a) <= Pow2(b)
    decreases b
  {
    if a < b {
      PowMonotone(a, b - 1);
    }
  }

  lemma FoldTwice(x: nat)
    requires x < 0x1_0000_0000
    ensures Fold(x) == Canon(x)
  {
    var t := x % 65536 + x / 65536;
    assert x == t + ONES * (x / 65536);
    if t <= ONES {
      CanonUnique(x, t, x / 65536);
    } else {
      CanonUnique(x, t - ONES, x / 65536 + 1);
    }
  }
}
