/** The register updates of a store, and what each of them keeps. */
module DramStore {
  import opened Streams
  import opened DramSpec
  import opened DramDatapath

  /** The registers after a request header. */
  function Started(r: Regs, h: Hdr): Regs {
    r.(hdr := h, flits := 0, sent := 0, addr := h.addr, left := h.size)
  }

  /** How far the operation address moves with one flit. */
  function Stride(first: bool, h: Hdr, N: nat): (n: nat)
    requires N > 0
    ensures 0 < n <= N
  {
    if first then N - Off(h.addr, N) else N
  }

  /** The registers after a payload flit. */
  function Took(r: Regs, flit: seq<byte>, first: bool, N: nat): Regs
    requires N > 0
  {
    var n := Stride(first, r.hdr, N);
    r.(flits := (r.flits + 1) % COUNTS,
       addr := r.addr + n,
       left := if r.left > n then r.left - n else 0,
       save := flit,
       saveMask := FlitMask(r, N))
  }

  ghost predicate Finished(r: Regs, p: seq<byte>, mem: seq<byte>, m0: seq<byte>, N: nat) {
    && HdrOk(r.hdr, |m0|, N) && r.hdr.op.Store? && r.hdr.size <= |p|
    && mem == Stored(m0, r.hdr.addr, p[..r.hdr.size])
  }

  lemma Numbers(r: Regs, m0: seq<byte>, N: nat)
    requires HdrOk(r.hdr, |m0|, N) && r.hdr.op.Store? && r.flits < r.hdr.msgLen
    ensures (r.flits + 1) % COUNTS == r.flits + 1
    ensures Lanes(r.flits + 1, N) == Lanes(r.flits, N) + N
    ensures r.flits + 1 == r.hdr.msgLen ==> r.hdr.size <= Lanes(r.flits + 1, N)
  {
    NextLanes(r.flits, N);
    FlitsBracket(r.hdr.size, N);
  }

  /** Taking the first flit. */
  lemma TakeFirst(r: Regs, flit: seq<byte>, m0: seq<byte>, N: nat)
    requires Storing(r, [], m0, m0, N) && r.flits == 0 < r.hdr.msgLen && |flit| == N
    ensures Storing(Took(r, flit, true, N), [] + flit,
      Written(m0, r.addr, WriteData(First, r, flit, N), WriteMask(First, r, N), N), m0, N)
  {
    hide FlitMask, Off, Blk, WriteData, WriteMask, Window, Written, Marks, Lanes, HdrOk;
    FirstWindow(r, flit, m0, N);
    FlitMaskMeaning(r, |m0|, N);
    Numbers(r, m0, N);
    NextLanes(0, N);
    OffNext(r.hdr.addr, N);
    var off := Off(r.hdr.addr, N);
    var k2 := StoredPart(r.hdr.size, off, N);
    var d, m := WriteData(First, r, flit, N), WriteMask(First, r, N);
    WindowExtends(m0, r.addr, flit, 0, k2, d, m, N);
    assert Stored(m0, r.addr, flit[..0]) == m0;
    assert [] + flit == flit;
    assert flit[N - N..] == flit;
    hide Stored;
  }

  /** Taking a later flit. */
  lemma TakeCopy(r: Regs, p: seq<byte>, flit: seq<byte>, mem: seq<byte>, m0: seq<byte>, N: nat)
    requires Storing(r, p, mem, m0, N) && 0 < r.flits < r.hdr.msgLen && |flit| == N
    ensures Storing(Took(r, flit, false, N), p + flit,
      Written(mem, r.addr, WriteData(Copy, r, flit, N), WriteMask(Copy, r, N), N), m0, N)
  {
    hide FlitMask, Off, Blk, WriteData, WriteMask, Window, Written, Marks, Lanes, HdrOk;
    CopyWindow(r, p, flit, mem, m0, N);
    FlitMaskMeaning(r, |m0|, N);
    Numbers(r, m0, N);
    OffNext(r.addr, N);
    var off := Off(r.hdr.addr, N);
    var k, k2, q := |p| - off, StoredPart(r.hdr.size, off, |p| + N), p + flit;
    var d, m := WriteData(Copy, r, flit, N), WriteMask(Copy, r, N);
    WindowExtends(m0, r.hdr.addr, q, k, k2, d, m, N);
    assert q[..k] == p[..k];
    assert q[|q| - N..] == flit;
    hide Stored;
  }

  /** The drain write finishes the memcpy. */
  lemma Drained(r: Regs, p: seq<byte>, flit: seq<byte>, mem: seq<byte>, m0: seq<byte>, N: nat)
    requires Storing(r, p, mem, m0, N) && r.flits == r.hdr.msgLen && r.left > 0 && |flit| == N
    ensures Finished(r, p, Written(mem, r.addr, WriteData(Drain, r, flit, N), WriteMask(Drain, r, N), N), m0, N)
  {
    hide FlitMask, Off, Blk, WriteData, WriteMask, Window, Written, Marks, Lanes, HdrOk, Storing, Stored, StoredPart;
    BeforeDrain(r, p, mem, m0, N);
    DrainWindow(r, p, flit, mem, m0, N);
    var k := |p| - Off(r.hdr.addr, N);
    var d, m := WriteData(Drain, r, flit, N), WriteMask(Drain, r, N);
    WindowExtends(m0, r.hdr.addr, p, k, r.hdr.size, d, m, N);
  }

  lemma BeforeDrain(r: Regs, p: seq<byte>, mem: seq<byte>, m0: seq<byte>, N: nat)
    requires Storing(r, p, mem, m0, N) && r.flits == r.hdr.msgLen && r.left > 0
    ensures HdrOk(r.hdr, |m0|, N) && r.hdr.op.Store? && |r.save| == |r.saveMask| == N
    ensures var k := |p| - Off(r.hdr.addr, N);
      0 <= k <= |p| && r.addr == r.hdr.addr + k && mem == Stored(m0, r.hdr.addr, p[..k])
  {
    FlitsBracket(r.hdr.size, N);
    hide Off, Lanes, Stored, SaveIs, Flits;
  }

  /** No drain write is needed exactly when the byte counter has reached zero. */
  lemma NothingLeft(r: Regs, p: seq<byte>, mem: seq<byte>, m0: seq<byte>, N: nat)
    requires Storing(r, p, mem, m0, N) && r.flits == r.hdr.msgLen && r.left == 0
    ensures Finished(r, p, mem, m0, N)
  {
    FlitsBracket(r.hdr.size, N);
    hide Off, Lanes, Stored, Marks;
  }
}
