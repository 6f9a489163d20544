/** The datapath of the DRAM controller: byte enables, shifted write data and the
    byte bookkeeping of a store, each related to the bytes of a memcpy. */
module DramDatapath {
  import opened Streams
  import opened DramSpec

  /** The datapath registers. */
  datatype Regs = Regs(
    hdr: Hdr,            // hdr_flit_reg
    flits: nat,          // curr_flit_count_reg
    addr: nat,           // curr_op_addr_reg
    left: nat,           // write_bytes_left_reg
    save: seq<byte>,     // save1_reg
    saveMask: seq<bool>, // save1_mask_reg
    line: seq<byte>,     // mem_read_data_reg
    sent: nat,           // read_flits_sent_reg
    respLen: nat)        // resp_msg_len_reg

  /** Where the data of a memory write comes from. */
  datatype Source = First | Copy | Drain

  const COUNTS := 0x40_0000 // flit counters have 22 bits

  function ShiftLeft<T>(s: seq<T>, n: nat, z: T): (r: seq<T>)
    requires n <= |s|
    ensures |r| == |s|
    ensures forall i :: 0 <= i < |s| ==> r[i] == if i + n < |s| then s[i + n] else z
  {
    s[n..] + seq(n, _ => z)
  }

  function ShiftRight<T>(s: seq<T>, n: nat, z: T): (r: seq<T>)
    requires n <= |s|
    ensures |r| == |s|
    ensures forall i :: 0 <= i < |s| ==> r[i] == if i < n then z else s[i - n]
  {
    seq(n, _ => z) + s[..|s| - n]
  }

  function Copies<T>(n: nat, x: T): (s: seq<T>)
    ensures |s| == n && forall i :: 0 <= i < n ==> s[i] == x
  {
    seq(n, _ => x)
  }

  function Both(a: seq<bool>, b: seq<bool>): (r: seq<bool>)
    requires |a| == |b|
    ensures |r| == |a| && forall i :: 0 <= i < |a| ==> r[i] == (a[i] && b[i])
  {
    seq(|a|, i requires 0 <= i < |a| => a[i] && b[i])
  }

  predicate LastRequestFlit(r: Regs) {
    r.flits == (r.hdr.msgLen + (COUNTS - 1)) % COUNTS
  }

  /** Padding of the last request flit. */
  function LastPad(size: nat, N: nat): (p: nat)
    requires N > 0
    ensures p < N
  {
    if Off(size, N) == 0 then 0 else N - Off(size, N)
  }

  /** Which bytes of the incoming flit belong to the request. */
  function FlitMask(r: Regs, N: nat): (m: seq<bool>)
    requires N > 0
    ensures |m| == N
  {
    if LastRequestFlit(r) then ShiftLeft(Copies(N, true), LastPad(r.hdr.size, N), false) else Copies(N, true)
  }

  /** The byte enables of a write, aligned to the top of a line. */
  function TopMask(src: Source, saveMask: seq<bool>, flitMask: seq<bool>, off: nat, N: nat): (m: seq<bool>)
    requires N > 0 && |saveMask| == |flitMask| == N && off < N
    ensures |m| == N
    ensures forall j :: 0 <= j < N ==> (m[j] <==> match src
      case First => j + off < N && flitMask[j]
      case Copy => if j < off then saveMask[j + (N - off)] else flitMask[j - off]
      case Drain => j < off && saveMask[j + (N - off)])
  {
    var none := Copies(N, false);
    match src
    case First => Both(ShiftLeft(Copies(N, true) + none, off, false), flitMask + none)[..N]
    case Copy => ShiftLeft(saveMask + flitMask, N - off, false)[..N]
    case Drain => ShiftLeft(saveMask + none, N - off, false)[..N]
  }

  /** The byte enables of a write. */
  function WriteMask(src: Source, r: Regs, N: nat): (m: seq<bool>)
    requires N > 0 && |r.saveMask| == N
    ensures |m| == 2 * N
  {
    ShiftRight(TopMask(src, r.saveMask, FlitMask(r, N), Off(r.hdr.addr, N), N) + Copies(N, false), Blk(r.addr, N), false)
  }

  /** The data of a write, aligned to the top of a line. */
  function TopData(src: Source, save: seq<byte>, flit: seq<byte>, off: nat, N: nat): (d: seq<byte>)
    requires N > 0 && |save| == |flit| == N && off < N
    ensures |d| == 2 * N
    ensures forall j :: 0 <= j < N ==>
      d[j] == (if src.First? then flit[j] else if j < off then save[j + (N - off)] else flit[j - off])
  {
    if src.First? then flit + Copies(N, 0) else ShiftLeft(save + flit, N - off, 0)
  }

  /** The data of a write. */
  function WriteData(src: Source, r: Regs, flit: seq<byte>, N: nat): (d: seq<byte>)
    requires N > 0 && |r.save| == |flit| == N
    ensures |d| == 2 * N
  {
    ShiftRight(TopData(src, r.save, flit, Off(r.hdr.addr, N), N), Blk(r.addr, N), 0)
  }

  /** A write of one line with byte enables: what the memory does. */
  function Written(mem: seq<byte>, a: nat, d: seq<byte>, m: seq<bool>, N: nat): (mem': seq<byte>)
    requires N > 0 && |d| == |m| == 2 * N
    ensures |mem'| == |mem|
  {
    var base := a - Blk(a, N);
    seq(|mem|, i requires 0 <= i < |mem| =>
      if base <= i < base + 2 * N && m[i - base] then d[i - base] else mem[i])
  }

  /** A write that carries exactly the bytes `k..k2` of `p`, starting at byte `blk` of the line. */
  ghost predicate Window(d: seq<byte>, m: seq<bool>, blk: nat, p: seq<byte>, k: nat, k2: nat, N: nat) {
    && |d| == |m| == 2 * N && k <= k2 <= |p| && blk + (k2 - k) <= 2 * N
    && forall i :: 0 <= i < 2 * N ==>
      && (m[i] <==> blk <= i < blk + (k2 - k))
      && (m[i] ==> d[i] == p[k + (i - blk)])
  }

  /** Such a write extends a partial memcpy from `k` to `k2` bytes. */
  lemma WindowExtends(m0: seq<byte>, addr: nat, p: seq<byte>, k: nat, k2: nat, d: seq<byte>, m: seq<bool>, N: nat)
    requires N > 0 && Window(d, m, Blk(addr + k, N), p, k, k2, N)
    ensures Written(Stored(m0, addr, p[..k]), addr + k, d, m, N) == Stored(m0, addr, p[..k2])
  {
    hide Blk;
    var blk := Blk(addr + k, N);
    var mem := Stored(m0, addr, p[..k]);
    var mem1 := Written(mem, addr + k, d, m, N);
    var base := addr + k - blk;
    forall i | 0 <= i < |m0|
      ensures mem1[i] == Stored(m0, addr, p[..k2])[i]
    {
      if base <= i < base + 2 * N {
        assert m[i - base] <==> addr + k <= i < addr + k2;
      }
    }
  }

  // ----- what a store has done so far -----

  /** The size of the part of a store that reaches memory when `got` bytes came in. */
  function StoredPart(size: nat, off: nat, got: nat): nat {
    if got < off then 0 else if size <= got - off then size else got - off
  }

  function Remaining(size: nat, done: nat): nat {
    if size <= done then 0 else size - done
  }

  /** The registers and the memory of a store that has taken the payload bytes `p`. */
  ghost predicate Storing(r: Regs, p: seq<byte>, mem: seq<byte>, m0: seq<byte>, N: nat) {
    && N > 0 && |r.save| == |r.saveMask| == N
    && HdrOk(r.hdr, |m0|, N) && r.hdr.op.Store?
    && r.flits <= r.hdr.msgLen && |p| == Lanes(r.flits, N)
    && if r.flits == 0 then r.addr == r.hdr.addr && r.left == r.hdr.size && mem == m0
       else Underway(r, p, mem, m0, N)
  }

  ghost predicate Underway(r: Regs, p: seq<byte>, mem: seq<byte>, m0: seq<byte>, N: nat)
    requires N > 0
  {
    var off := Off(r.hdr.addr, N);
    && N <= |p| == Lanes(r.flits, N)
    && r.addr == r.hdr.addr + (|p| - off) && Off(r.addr, N) == 0
    && r.left == Remaining(r.hdr.size, |p| - off)
    && SaveIs(r, p, N)
    && mem == Stored(m0, r.hdr.addr, p[..StoredPart(r.hdr.size, off, |p|)])
  }

  /** A mask that marks the bytes of `p` below `size`, where `m[0]` belongs to byte `at`. */
  ghost predicate Marks(m: seq<bool>, at: int, size: nat) {
    forall i :: 0 <= i < |m| ==> (m[i] <==> at + i < size)
  }

  /** The save register holds the last flit, and its mask the bytes of it that count. */
  ghost predicate SaveIs(r: Regs, p: seq<byte>, N: nat) {
    && N <= |p| && r.save == p[|p| - N..] && |r.saveMask| == N
    && Marks(r.saveMask, |p| - N, r.hdr.size)
  }

  /** The flit mask marks the payload bytes that belong to the request. */
  lemma FlitMaskMeaning(r: Regs, size: nat, N: nat)
    requires HdrOk(r.hdr, size, N) && r.hdr.op.Store? && r.flits < r.hdr.msgLen
    ensures LastRequestFlit(r) <==> r.flits + 1 == r.hdr.msgLen
    ensures LastRequestFlit(r) <==> r.hdr.size <= Lanes(r.flits + 1, N)
    ensures Lanes(r.flits, N) < r.hdr.size
    ensures Marks(FlitMask(r, N), Lanes(r.flits, N), r.hdr.size)
  {
    var n := r.hdr.msgLen;
    assert (n + (COUNTS - 1)) % COUNTS == n - 1;
    FlitsBracket(r.hdr.size, N);
    NextLanes(r.flits, N);
    LanesMonotone(r.flits, n - 1, N);
    if r.flits + 1 < n {
      LanesMonotone(r.flits + 1, n - 1, N);
    }
    hide Lanes, Off;
  }

  /** Shifted to its place in the line, a write carries what its top half selects. */
  lemma Placed(top: seq<bool>, data: seq<byte>, blk: nat, p: seq<byte>, k: nat, k2: nat, N: nat)
    requires |top| == N && |data| == 2 * N && blk <= 2 * N
    requires k <= k2 <= |p| && k2 - k <= N && blk + (k2 - k) <= 2 * N
    requires forall j :: 0 <= j < N ==> (top[j] <==> k + j < k2)
    requires forall j :: 0 <= j < k2 - k ==> data[j] == p[k + j]
    ensures Window(ShiftRight(data, blk, 0), ShiftRight(top + Copies(N, false), blk, false), blk, p, k, k2, N)
  {
    var d, m := ShiftRight(data, blk, 0), ShiftRight(top + Copies(N, false), blk, false);
    hide ShiftRight;
    forall i | 0 <= i < 2 * N
      ensures m[i] <==> blk <= i < blk + (k2 - k)
      ensures m[i] ==> d[i] == p[k + (i - blk)]
    {
    }
  }

  /** The first write carries the bytes up to the next flit boundary. */
  lemma FirstWindow(r: Regs, flit: seq<byte>, m0: seq<byte>, N: nat)
    requires Storing(r, [], m0, m0, N) && r.flits == 0 && |flit| == N
    ensures Window(WriteData(First, r, flit, N), WriteMask(First, r, N), Blk(r.addr, N), flit,
                   0, StoredPart(r.hdr.size, Off(r.hdr.addr, N), N), N)
  {
    FlitMaskMeaning(r, |m0|, N);
    Halves(r.addr, N);
    NextLanes(0, N);
    hide FlitMask, Off, Blk, HdrOk, Lanes, TopMask, TopData, ShiftRight, Window, Copies;
    var off, blk := Off(r.hdr.addr, N), Blk(r.addr, N);
    Placed(TopMask(First, r.saveMask, FlitMask(r, N), off, N), TopData(First, r.save, flit, off, N), blk, flit,
      0, StoredPart(r.hdr.size, off, N), N);
  }

  /** The save register and the new flit, shifted, are a stretch of the payload. */
  lemma Joined(p: seq<byte>, flit: seq<byte>, off: nat, N: nat)
    requires off < N <= |p| && |flit| == N
    ensures TopData(Copy, p[|p| - N..], flit, off, N)[..N] == (p + flit)[|p| - off..|p| - off + N]
    ensures TopData(Drain, p[|p| - N..], flit, off, N)[..off] == p[|p| - off..]
  {
    var data, q := TopData(Copy, p[|p| - N..], flit, off, N), p + flit;
    hide TopData;
    var k := |p| - off;
    assert forall j :: 0 <= j < N ==> data[..N][j] == data[j] == q[k + j] == q[k..k + N][j];
    var data1 := TopData(Drain, p[|p| - N..], flit, off, N);
    assert forall j :: 0 <= j < off ==> data1[..off][j] == data1[j] == p[k + j] == p[k..][j];
  }

  lemma CopyPlaced(p: seq<byte>, flit: seq<byte>, saveMask: seq<bool>, flitMask: seq<bool>, off: nat, blk: nat, size: nat, N: nat)
    requires off < N <= |p| && |flit| == |saveMask| == |flitMask| == N && blk <= N && |p| < size
    requires Marks(saveMask, |p| - N, size) && Marks(flitMask, |p|, size)
    ensures Window(ShiftRight(TopData(Copy, p[|p| - N..], flit, off, N), blk, 0),
                   ShiftRight(TopMask(Copy, saveMask, flitMask, off, N) + Copies(N, false), blk, false), blk, p + flit,
                   |p| - off, StoredPart(size, off, |p| + N), N)
  {
    Joined(p, flit, off, N);
    var top, data := TopMask(Copy, saveMask, flitMask, off, N), TopData(Copy, p[|p| - N..], flit, off, N);
    var k, k2, q := |p| - off, StoredPart(size, off, |p| + N), p + flit;
    hide TopMask, TopData, ShiftRight, Window, Copies;
    assert forall j :: 0 <= j < N ==> data[..N][j] == q[k..k + N][j];
    assert forall j :: 0 <= j < N ==> (top[j] <==> k + j < k2);
    Placed(top, data, blk, q, k, k2, N);
  }

  lemma DrainPlaced(p: seq<byte>, flit: seq<byte>, saveMask: seq<bool>, flitMask: seq<bool>, off: nat, blk: nat, size: nat, N: nat)
    requires off < N <= |p| && |flit| == |saveMask| == |flitMask| == N && blk <= N && |p| - off < size <= |p|
    requires Marks(saveMask, |p| - N, size)
    ensures Window(ShiftRight(TopData(Drain, p[|p| - N..], flit, off, N), blk, 0),
                   ShiftRight(TopMask(Drain, saveMask, flitMask, off, N) + Copies(N, false), blk, false), blk, p,
                   |p| - off, size, N)
  {
    Joined(p, flit, off, N);
    var top, data := TopMask(Drain, saveMask, flitMask, off, N), TopData(Drain, p[|p| - N..], flit, off, N);
    var k := |p| - off;
    hide TopMask, TopData, ShiftRight, Window, Copies;
    assert forall j :: 0 <= j < off ==> data[..off][j] == p[k..][j];
    assert forall j :: 0 <= j < N ==> (top[j] <==> k + j < size);
    Placed(top, data, blk, p, k, size, N);
  }

  /** A body write carries the rest of the saved flit and the head of the new one. */
  lemma CopyWindow(r: Regs, p: seq<byte>, flit: seq<byte>, mem: seq<byte>, m0: seq<byte>, N: nat)
    requires Storing(r, p, mem, m0, N) && 0 < r.flits < r.hdr.msgLen && |flit| == N
    ensures var off := Off(r.hdr.addr, N);
      StoredPart(r.hdr.size, off, |p|) == |p| - off
      && Window(WriteData(Copy, r, flit, N), WriteMask(Copy, r, N), Blk(r.addr, N), p + flit,
                |p| - off, StoredPart(r.hdr.size, off, |p| + N), N)
  {
    FlitMaskMeaning(r, |m0|, N);
    Halves(r.addr, N);
    hide FlitMask, Off, Blk, HdrOk, Lanes, TopMask, TopData, ShiftRight, Window, Copies, Stored, Marks;
    assert r.save == p[|p| - N..];
    CopyPlaced(p, flit, r.saveMask, FlitMask(r, N), Off(r.hdr.addr, N), Blk(r.addr, N), r.hdr.size, N);
  }

  /** The drain write carries what is left of the saved flit. */
  lemma DrainWindow(r: Regs, p: seq<byte>, flit: seq<byte>, mem: seq<byte>, m0: seq<byte>, N: nat)
    requires Storing(r, p, mem, m0, N) && r.flits == r.hdr.msgLen && r.left > 0 && |flit| == N
    ensures var off := Off(r.hdr.addr, N);
      StoredPart(r.hdr.size, off, |p|) == |p| - off && r.hdr.size <= |p|
      && Window(WriteData(Drain, r, flit, N), WriteMask(Drain, r, N), Blk(r.addr, N), p,
                |p| - off, r.hdr.size, N)
  {
    FlitsBracket(r.hdr.size, N);
    Halves(r.addr, N);
    hide FlitMask, Off, Blk, Lanes, TopMask, TopData, ShiftRight, Window, Copies, Stored, Marks;
    DrainPlaced(p, flit, r.saveMask, FlitMask(r, N), Off(r.hdr.addr, N), Blk(r.addr, N), r.hdr.size, N);
  }
}
