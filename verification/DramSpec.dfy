/** What the DRAM controller is for: a byte-addressed memory served over a network
    of flits of `N` bytes, with memory lines of `2N` bytes. */
module DramSpec {
  import opened Streams
  import opened Modular

  datatype Op = Load | Store

  /** The fields of a request header flit; `src` identifies the requester. */
  datatype Hdr = Hdr(op: Op, src: nat, addr: nat, size: nat, msgLen: nat)

  /** The acknowledgement header: which operation, to whom, how many flits follow. */
  datatype Ack = Ack(op: Op, dst: nat, size: nat, msgLen: nat)

  datatype OutFlit = Head(ack: Ack) | Body(data: seq<byte>)

  datatype Request = Request(hdr: Hdr, payload: seq<byte>)

  // ----- addresses -----

  /** The byte offset of an address within a flit. */
  function Off(a: nat, N: nat): (r: nat)
    requires N > 0
    ensures r < N
  {
    Word(a, N)
  }

  /** The byte offset of an address within a line: `block_addr`. */
  function Blk(a: nat, N: nat): (r: nat)
    requires N > 0
    ensures r < 2 * N && r <= a
  {
    Rem(a, 2 * N)
  }

  /** The line number of an address: `line_addr`. */
  function LineNo(a: nat, N: nat): nat
    requires N > 0
  {
    Quot(a, 2 * N)
  }

  /** An address sits in the lower or the upper half of its line. */
  lemma Halves(a: nat, N: nat)
    requires N > 0
    ensures Blk(a, N) == Off(a, N) || Blk(a, N) == Off(a, N) + N
  {
    hide Quot, Rem;
    var q, r := LineNo(a, N), Blk(a, N);
    assert a == 2 * N * q + r;
    if r < N {
      assert a == N * (2 * q) + r;
      Divided(a, N, 2 * q, r);
    } else {
      assert a == N * (2 * q + 1) + (r - N);
      Divided(a, N, 2 * q + 1, r - N);
    }
  }

  lemma OffNext(a: nat, N: nat)
    requires N > 0
    ensures Off(a + N, N) == Off(a, N)
    ensures Off(a + (N - Off(a, N)), N) == 0
  {
    hide Quot, Rem;
    var q, r := Quot(a, N), Rem(a, N);
    assert a + N == N * (q + 1) + r;
    Divided(a + N, N, q + 1, r);
    assert a + (N - r) == N * (q + 1) + 0;
    Divided(a + (N - r), N, q + 1, 0);
  }

  /** One flit further on, the line is the same exactly from the lower half. */
  lemma NextFlit(a: nat, N: nat)
    requires N > 0
    ensures LineNo(a + N, N) == LineNo(a, N) <==> Blk(a, N) < N
    ensures Blk(a + N, N) == if Blk(a, N) < N then Blk(a, N) + N else Blk(a, N) - N
  {
    hide Quot, Rem;
    var w := 2 * N;
    var q, r := Quot(a, w), Rem(a, w);
    if r < N {
      Divided(a + N, w, q, r + N);
    } else {
      assert a + N == w * (q + 1) + (r - N);
      Divided(a + N, w, q + 1, r - N);
    }
  }

  // ----- flit counts -----

  /** The number of flits that carry `size` bytes. */
  function Flits(size: nat, N: nat): nat
    requires N > 0
  {
    if Rem(size, N) == 0 then Quot(size, N) else Quot(size, N) + 1
  }

  /** The flit count brackets the size; the rest is the padding of the last flit. */
  lemma FlitsBracket(size: nat, N: nat)
    requires N > 0 && size > 0
    ensures 0 < Flits(size, N) && Lanes(Flits(size, N) - 1, N) < size <= Lanes(Flits(size, N), N)
    ensures Lanes(Flits(size, N), N) - size == if Off(size, N) == 0 then 0 else N - Off(size, N)
  {
    hide Quot, Rem;
    var q, r := Quot(size, N), Rem(size, N);
    assert q * N == N * q;
    if r == 0 {
      assert q > 0;
      assert (q - 1) * N == q * N - N;
    } else {
      assert (q + 1) * N == q * N + N;
    }
  }

  lemma LanesMonotone(m: nat, n: nat, N: nat)
    requires m <= n
    ensures Lanes(m, N) <= Lanes(n, N)
  {
    assert (n - m) * N >= 0;
    assert n * N == m * N + (n - m) * N;
  }

  // ----- the memory -----

  /** Plain memcpy. */
  function Stored(mem: seq<byte>, addr: nat, p: seq<byte>): (m: seq<byte>)
    ensures |m| == |mem|
  {
    seq(|mem|, i requires 0 <= i < |mem| => if addr <= i < addr + |p| then p[i - addr] else mem[i])
  }

  /** The memory line that holds address `a`. */
  function Line(mem: seq<byte>, a: nat, N: nat): (line: seq<byte>)
    requires N > 0
    ensures |line| == 2 * N
  {
    var base := a - Blk(a, N);
    seq(2 * N, i requires 0 <= i < 2 * N => if base + i < |mem| then mem[base + i] else 0)
  }

  /** A load flit: the line shifted left to the address, its top `N` bytes. */
  function FlitOf(line: seq<byte>, a: nat, N: nat): (d: seq<byte>)
    requires N > 0 && |line| == 2 * N
    ensures |d| == N
  {
    (line[Blk(a, N)..] + seq(Blk(a, N), _ => 0))[..N]
  }

  // ----- requests and their answers -----

  /** A request the controller can serve: inside the memory, not empty, and with the
      flit count of its size within the 22-bit field. */
  predicate HdrOk(h: Hdr, size: nat, N: nat) {
    && N > 0 && 0 < h.size && h.addr + h.size <= size
    && Flits(h.size, N) < 0x40_0000
    && (h.op.Store? ==> h.msgLen == Flits(h.size, N))
  }

  predicate RequestOk(r: Request, size: nat, N: nat) {
    HdrOk(r.hdr, size, N) && (r.hdr.op.Store? ==> r.hdr.size <= |r.payload|)
  }

  ghost predicate AllOk(rs: seq<Request>, size: nat, N: nat) {
    forall i :: 0 <= i < |rs| ==> RequestOk(rs[i], size, N)
  }

  function AckOf(h: Hdr, N: nat): Ack
    requires N > 0
  {
    Ack(h.op, h.src, h.size, if h.op.Store? then 0 else Flits(h.size, N))
  }

  /** The data flits that answer a load. */
  function Bodies(mem: seq<byte>, addr: nat, n: nat, N: nat): (bs: seq<OutFlit>)
    requires N > 0
    ensures |bs| == n
  {
    if n == 0 then []
    else
      var a := addr + Lanes(n - 1, N);
      Bodies(mem, addr, n - 1, N) + [Body(FlitOf(Line(mem, a, N), a, N))]
  }

  function Effect(mem: seq<byte>, r: Request): (m: seq<byte>)
    ensures |m| == |mem|
  {
    if r.hdr.op.Store? && r.hdr.size <= |r.payload| then Stored(mem, r.hdr.addr, r.payload[..r.hdr.size]) else mem
  }

  /** The memory after a list of requests. */
  function SpecMem(init: seq<byte>, rs: seq<Request>): (m: seq<byte>)
    ensures |m| == |init|
  {
    if rs == [] then init else Effect(SpecMem(init, rs[..|rs| - 1]), rs[|rs| - 1])
  }

  /** The flits that answer one request. */
  function Answer(mem: seq<byte>, r: Request, N: nat): seq<OutFlit>
    requires N > 0
  {
    if r.hdr.op.Store? then [Head(AckOf(r.hdr, N))]
    else [Head(AckOf(r.hdr, N))] + Bodies(mem, r.hdr.addr, Flits(r.hdr.size, N), N)
  }

  /** The answer is one packet: its first flit says which operation is answered, to whom and
      for how many bytes, and announces exactly the data flits that follow. */
  lemma AnswerShape(mem: seq<byte>, r: Request, N: nat)
    requires N > 0
    ensures var out := Answer(mem, r, N);
      && |out| > 0 && out[0].Head?
      && out[0].ack.op == r.hdr.op && out[0].ack.dst == r.hdr.src && out[0].ack.size == r.hdr.size
      && out[0].ack.msgLen == |out| - 1
      && (forall i :: 0 < i < |out| ==> out[i].Body?)
      && (r.hdr.op.Store? ==> |out| == 1)
      && (r.hdr.op.Load? && r.hdr.size > 0 ==> Lanes(|out| - 2, N) < r.hdr.size <= Lanes(|out| - 1, N))
  {
    hide Flits;
    if r.hdr.op.Load? {
      BodiesAre(mem, r.hdr.addr, Flits(r.hdr.size, N), N);
      if r.hdr.size > 0 {
        FlitsBracket(r.hdr.size, N);
      }
    }
  }

  lemma {:induction false} BodiesAre(mem: seq<byte>, addr: nat, n: nat, N: nat)
    requires N > 0
    ensures forall i :: 0 <= i < n ==> Bodies(mem, addr, n, N)[i].Body?
  {
    if n > 0 {
      BodiesAre(mem, addr, n - 1, N);
    }
  }

  /** The flits that answer a list of requests. */
  function SpecOut(init: seq<byte>, rs: seq<Request>, N: nat): seq<OutFlit>
    requires N > 0
  {
    if rs == [] then []
    else
      var before := rs[..|rs| - 1];
      SpecOut(init, before, N) + Answer(SpecMem(init, before), rs[|rs| - 1], N)
  }

  lemma PushRequest(init: seq<byte>, rs: seq<Request>, r: Request, N: nat)
    requires N > 0 && AllOk(rs, |init|, N) && RequestOk(r, |init|, N)
    ensures AllOk(rs + [r], |init|, N)
    ensures SpecMem(init, rs + [r]) == Effect(SpecMem(init, rs), r)
    ensures SpecOut(init, rs + [r], N) == SpecOut(init, rs, N) + Answer(SpecMem(init, rs), r, N)
  {
    assert (rs + [r])[..|rs|] == rs;
  }
}
