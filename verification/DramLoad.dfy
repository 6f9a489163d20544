/** What a load returns, and what a load after a store returns. */
module DramLoad {
  import opened Streams
  import opened DramSpec
  import opened Modular

  /** The bytes of a list of response flits. */
  function LoadedBytes(bs: seq<OutFlit>): seq<byte> {
    if bs == [] then []
    else
      var b := bs[|bs| - 1];
      LoadedBytes(bs[..|bs| - 1]) + if b.Body? then b.data else []
  }

  /** The bytes a load of `size` bytes at `addr` returns. */
  function Loaded(mem: seq<byte>, addr: nat, size: nat, N: nat): seq<byte>
    requires N > 0
  {
    var bs := LoadedBytes(Bodies(mem, addr, Flits(size, N), N));
    if size <= |bs| then bs[..size] else bs
  }

  /** What a caller can check: the address is a multiple of the flit size, or the
      whole request lies in one line. */
  predicate Servable(addr: nat, size: nat, N: nat)
    requires N > 0
  {
    Off(addr, N) == 0 || Blk(addr, N) + size <= 2 * N
  }

  /** One response flit: memory up to the end of the line, zeros after it. */
  lemma FlitByte(mem: seq<byte>, a: nat, i: nat, N: nat)
    requires N > 0 && i < N
    ensures var d := FlitOf(Line(mem, a, N), a, N);
      d[i] == if Blk(a, N) + i < 2 * N && a + i < |mem| then mem[a + i] else 0
  {
    hide Blk;
    var line, blk := Line(mem, a, N), Blk(a, N);
    var shifted := line[blk..] + seq(blk, _ => 0);
    assert FlitOf(line, a, N)[i] == shifted[i];
  }

  lemma AddBody(mem: seq<byte>, addr: nat, n: nat, N: nat)
    requires N > 0
    ensures var a := addr + Lanes(n, N);
      LoadedBytes(Bodies(mem, addr, n + 1, N)) == LoadedBytes(Bodies(mem, addr, n, N)) + FlitOf(Line(mem, a, N), a, N)
  {
    hide Lanes, Line, FlitOf;
    var a := addr + Lanes(n, N);
    var bs := Bodies(mem, addr, n, N);
    assert (bs + [Body(FlitOf(Line(mem, a, N), a, N))])[..|bs|] == bs;
  }

  /** `n` response flits are `n` flits long. */
  lemma {:induction false} BodiesLength(mem: seq<byte>, addr: nat, n: nat, N: nat)
    requires N > 0
    ensures |LoadedBytes(Bodies(mem, addr, n, N))| == Lanes(n, N)
  {
    if n > 0 {
      BodiesLength(mem, addr, n - 1, N);
      AddBody(mem, addr, n - 1, N);
      NextLanes(n - 1, N);
    } else {
      NextLanes(0, N);
    }
  }

  /** In a servable request no flit runs over the end of its line before the request ends. */
  lemma FlitFits(addr: nat, size: nat, n: nat, i: nat, N: nat)
    requires N > 0 && Servable(addr, size, N) && i < N && Lanes(n, N) + i < size
    ensures Blk(addr + Lanes(n, N), N) + i < 2 * N
  {
    var a := addr + Lanes(n, N);
    if Off(addr, N) == 0 {
      OffLanes(addr, n, N);
      Halves(a, N);
    } else {
      NextLanes(0, N);
      NextLanes(1, N);
      if n >= 2 {
        LanesMonotone(2, n, N);
        assert false;
      }
      NextFlit(addr, N);
      hide Off, Blk, Lanes;
    }
  }

  lemma {:induction false} OffLanes(addr: nat, n: nat, N: nat)
    requires N > 0
    ensures Off(addr + Lanes(n, N), N) == Off(addr, N)
  {
    hide Off, Lanes;
    if n > 0 {
      OffLanes(addr, n - 1, N);
      NextLanes(n - 1, N);
      OffNext(addr + Lanes(n - 1, N), N);
    } else {
      NextLanes(0, N);
    }
  }

  lemma {:induction false} BodiesPrefix(mem: seq<byte>, addr: nat, m: nat, n: nat, N: nat)
    requires N > 0 && m <= n
    ensures LoadedBytes(Bodies(mem, addr, m, N)) <= LoadedBytes(Bodies(mem, addr, n, N))
  {
    if m < n {
      hide Bodies, LoadedBytes, Line, FlitOf, Lanes;
      BodiesPrefix(mem, addr, m, n - 1, N);
      AddBody(mem, addr, n - 1, N);
    }
  }

  /** Byte `i` of response flit `m`. */
  lemma BodyByte(mem: seq<byte>, addr: nat, m: nat, n: nat, i: nat, N: nat)
    requires N > 0 && m < n && i < N
    ensures var bs, a := LoadedBytes(Bodies(mem, addr, n, N)), addr + Lanes(m, N);
      Lanes(m, N) + i < |bs| && bs[Lanes(m, N) + i] == FlitOf(Line(mem, a, N), a, N)[i]
  {
    hide Bodies, LoadedBytes, Line, FlitOf, Lanes;
    AddBody(mem, addr, m, N);
    BodiesLength(mem, addr, m, N);
    BodiesPrefix(mem, addr, m + 1, n, N);
  }

  lemma ByteOf(mem: seq<byte>, addr: nat, size: nat, n: nat, t: nat, N: nat)
    requires N > 0 && Servable(addr, size, N) && addr + size <= |mem| && t < size <= Lanes(n, N)
    ensures t < |LoadedBytes(Bodies(mem, addr, n, N))| && LoadedBytes(Bodies(mem, addr, n, N))[t] == mem[addr + t]
  {
    var m, i := Quot(t, N), Rem(t, N);
    assert Lanes(m, N) + i == t by {
      assert N * m == m * N;
    }
    hide Lanes, Bodies, LoadedBytes, Line, FlitOf, Servable, Quot, Rem;
    assert m < n by {
      if n <= m {
        LanesMonotone(n, m, N);
      }
    }
    BodyByte(mem, addr, m, n, i, N);
    FlitFits(addr, size, m, i, N);
    FlitByte(mem, addr + Lanes(m, N), i, N);
  }

  /** A servable load returns the memory. */
  lemma LoadReturnsMemory(mem: seq<byte>, addr: nat, size: nat, N: nat)
    requires N > 0 && size > 0 && Servable(addr, size, N) && addr + size <= |mem|
    ensures Loaded(mem, addr, size, N) == mem[addr..addr + size]
  {
    var n := Flits(size, N);
    FlitsBracket(size, N);
    BodiesLength(mem, addr, n, N);
    hide Lanes, Servable, Bodies, LoadedBytes, Flits;
    forall t | 0 <= t < size
      ensures Loaded(mem, addr, size, N)[t] == mem[addr + t]
    {
      ByteOf(mem, addr, size, n, t, N);
    }
  }

  /** The flit and the byte in it where the first line ends. */
  lemma LineEnd(addr: nat, size: nat, N: nat) returns (m: nat, i: nat)
    requires N > 0 && !Servable(addr, size, N)
    ensures 0 < size && m < Flits(size, N) && i < N && Lanes(m, N) + i == 2 * N - Blk(addr, N)
    ensures Blk(addr + Lanes(m, N), N) + i >= 2 * N
  {
    hide Off, Blk;
    Halves(addr, N);
    NextFlit(addr, N);
    FlitsBracket(size, N);
    NextLanes(0, N);
    NextLanes(1, N);
    var blk, n := Blk(addr, N), Flits(size, N);
    hide Flits, Lanes;
    m := if blk > N then 0 else 1;
    i := if blk > N then 2 * N - blk else N - blk;
    if n == 1 && m == 1 {
      assert false;
    }
  }

  /** Any other load returns a zero where the first line ends, whatever memory holds. */
  lemma OverrunReadsZero(mem: seq<byte>, addr: nat, size: nat, N: nat)
    requires N > 0 && !Servable(addr, size, N)
    ensures 0 <= 2 * N - Blk(addr, N) < size
    ensures |Loaded(mem, addr, size, N)| == size && Loaded(mem, addr, size, N)[2 * N - Blk(addr, N)] == 0
  {
    var m, i := LineEnd(addr, size, N);
    var n := Flits(size, N);
    FlitsBracket(size, N);
    BodiesLength(mem, addr, n, N);
    BodyByte(mem, addr, m, n, i, N);
    FlitByte(mem, addr + Lanes(m, N), i, N);
    hide Blk, Lanes, Flits, Bodies, LoadedBytes, FlitOf, Line;
  }

  /** A load is right for every memory exactly when it is servable. */
  lemma LoadExactlyWhenServable(addr: nat, size: nat, total: nat, N: nat)
    requires N > 0 && size > 0 && addr + size <= total
    ensures (forall mem: seq<byte> :: |mem| == total ==> Loaded(mem, addr, size, N) == mem[addr..addr + size])
            <==> Servable(addr, size, N)
  {
    if Servable(addr, size, N) {
      forall mem: seq<byte> | |mem| == total
        ensures Loaded(mem, addr, size, N) == mem[addr..addr + size]
      {
        LoadReturnsMemory(mem, addr, size, N);
      }
    } else {
      var ones: seq<byte> := seq(total, _ => 1);
      OverrunReadsZero(ones, addr, size, N);
      var t := 2 * N - Blk(addr, N);
      hide Loaded, Blk, Servable;
      assert ones[addr..addr + size][t] == 1;
      assert Loaded(ones, addr, size, N) != ones[addr..addr + size];
    }
  }

  // ----- a load after a store -----

  /** No request of the list writes into [addr, addr + size). */
  ghost predicate Spares(rs: seq<Request>, addr: nat, size: nat) {
    forall i :: 0 <= i < |rs| && rs[i].hdr.op.Store? ==>
      rs[i].hdr.addr + rs[i].hdr.size <= addr || addr + size <= rs[i].hdr.addr
  }

  lemma {:induction false} Undisturbed(init: seq<byte>, before: seq<Request>, between: seq<Request>, addr: nat, size: nat)
    requires Spares(between, addr, size) && addr + size <= |init|
    ensures SpecMem(init, before + between)[addr..addr + size] == SpecMem(init, before)[addr..addr + size]
  {
    if between == [] {
      assert before + between == before;
    } else {
      var shorter, r := between[..|between| - 1], between[|between| - 1];
      Undisturbed(init, before, shorter, addr, size);
      var all := before + between;
      assert all[..|all| - 1] == before + shorter && all[|all| - 1] == r;
      var m := SpecMem(init, before + shorter);
      assert SpecMem(init, all) == Effect(m, r);
      assert Effect(m, r)[addr..addr + size] == m[addr..addr + size];
    }
  }

  /** The flits carry the bytes, and no more flits than they need. */
  predicate CarriedBy(bytes: seq<byte>, bodies: seq<OutFlit>, N: nat) {
    |bodies| > 0 && Lanes(|bodies| - 1, N) < |bytes| <= Lanes(|bodies|, N) && bytes <= LoadedBytes(bodies)
  }

  /** A servable load that follows a store to the same place, with any requests between
      them that write elsewhere, is answered with its header and with flits that carry
      the stored bytes. */
  lemma RoundTrip(init: seq<byte>, before: seq<Request>, st: Request, between: seq<Request>, ld: Request, N: nat)
    requires N > 0 && RequestOk(st, |init|, N) && RequestOk(ld, |init|, N)
    requires st.hdr.op.Store? && ld.hdr.op.Load? && ld.hdr.addr == st.hdr.addr && ld.hdr.size == st.hdr.size
    requires Spares(between, st.hdr.addr, st.hdr.size) && Servable(ld.hdr.addr, ld.hdr.size, N)
    ensures var rs := before + [st] + between;
      exists bodies: seq<OutFlit> ::
        && SpecOut(init, rs + [ld], N) == SpecOut(init, rs, N) + ([Head(Ack(Load, ld.hdr.src, ld.hdr.size, |bodies|))] + bodies)
        && CarriedBy(st.payload[..st.hdr.size], bodies, N)
  {
    hide Flits, Servable, Lanes, Bodies, LoadedBytes;
    var rs := before + [st] + between;
    var mem := SpecMem(init, rs);
    var addr, size := ld.hdr.addr, ld.hdr.size;
    Undisturbed(init, before + [st], between, addr, size);
    assert (before + [st])[..|before|] == before;
    assert SpecMem(init, before + [st])[addr..addr + size] == st.payload[..size];
    LoadReturnsMemory(mem, addr, size, N);
    FlitsBracket(size, N);
    BodiesLength(mem, addr, Flits(size, N), N);
    var bodies := Bodies(mem, addr, Flits(size, N), N);
    assert (rs + [ld])[..|rs|] == rs;
    hide SpecMem;
    AnswerShape(mem, ld, N);
    assert Answer(mem, ld, N) == [Head(Ack(Load, ld.hdr.src, size, |bodies|))] + bodies;
    assert CarriedBy(st.payload[..size], bodies, N);
  }
}
