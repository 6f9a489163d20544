/** The two-read, one-write memory of initial sequence numbers: writes are bypassed to
    reads of the same cycle, and a read is issued again while its response waits. */
module SeqNumMem {
  import opened Streams

  datatype Write = Write(val: bool, addr: nat, data: nat)

  /** One read port: the request registers and the synchronous memory's data output. */
  datatype Port = Port(val: bool, addr: nat, data: nat)

  datatype ReadReq = ReadReq(val: bool, addr: nat)

  /** A plain array after a list of writes. */
  function Replay(init: seq<nat>, writes: seq<Write>): (m: seq<nat>)
    ensures |m| == |init|
  {
    if writes == [] then init
    else
      var m, w := Replay(init, writes[..|writes| - 1]), writes[|writes| - 1];
      if w.val && w.addr < |m| then m[w.addr := w.data] else m
  }

  lemma PushWrite(init: seq<nat>, writes: seq<Write>, w: Write)
    ensures Replay(init, writes + [w]) ==
      (if w.val && w.addr < |init| then Replay(init, writes)[w.addr := w.data] else Replay(init, writes))
  {
    assert (writes + [w])[..|writes|] == writes;
  }

  // ----- one read port -----

  function Ready(p: Port, respRdy: bool): bool {
    !p.val || respRdy
  }

  /** The response, with the write of the previous cycle bypassed. */
  function Response(p: Port, w: Write): nat {
    if w.val && p.val && w.addr == p.addr then w.data else p.data
  }

  /** The request given to the memory: the new one, or the waiting one again. */
  function Issued(p: Port, req: ReadReq, respRdy: bool): ReadReq {
    if p.val && !respRdy then ReadReq(p.val, p.addr) else req
  }

  /** What a synchronous memory puts out: the old word if a read is issued, and anything
      (`junk`) otherwise. It must not be asked for the word that is being written. */
  function MemOut(mem: seq<nat>, issue: bool, addr: nat, w: Write, junk: nat): nat
    requires issue && w.val ==> w.addr != addr
  {
    if issue && addr < |mem| then mem[addr] else junk
  }

  /** The port after a cycle with the write `w`. The read is suppressed when it collides. */
  function NextPort(p: Port, req: ReadReq, respRdy: bool, mem: seq<nat>, w: Write, junk: nat): Port {
    var r := Issued(p, req, respRdy);
    var issue := if r.val && w.val && r.addr == w.addr then false else r.val;
    var kept := if Ready(p, respRdy) then r else ReadReq(p.val, p.addr);
    Port(kept.val, kept.addr, MemOut(mem, issue, r.addr, w, junk))
  }

  /** Whenever a response is valid, it is the array's word. */
  predicate PortOk(p: Port, w: Write, mem: seq<nat>) {
    p.val ==> p.addr < |mem| && Response(p, w) == mem[p.addr]
  }

  lemma PortKeeps(p: Port, w: Write, mem: seq<nat>, req: ReadReq, respRdy: bool, w1: Write, junk: nat)
    requires PortOk(p, w, mem) && (req.val ==> req.addr < |mem|) && (w1.val ==> w1.addr < |mem|)
    ensures PortOk(NextPort(p, req, respRdy, mem, w1, junk), w1, if w1.val then mem[w1.addr := w1.data] else mem)
  {
  }

  /** The requests a port has accepted and the number it has answered. */
  datatype Asked = Asked(addrs: seq<nat>, answered: nat)

  predicate AskedOk(p: Port, a: Asked) {
    && |a.addrs| == a.answered + (if p.val then 1 else 0)
    && (p.val ==> p.addr == a.addrs[a.answered])
  }

  function NextAsked(p: Port, a: Asked, req: ReadReq, respRdy: bool): Asked {
    Asked(a.addrs + Maybe(req.val && Ready(p, respRdy), req.addr), if p.val && respRdy then a.answered + 1 else a.answered)
  }

  lemma AskedKeeps(p: Port, a: Asked, req: ReadReq, respRdy: bool, mem: seq<nat>, w1: Write, junk: nat)
    requires AskedOk(p, a)
    ensures AskedOk(NextPort(p, req, respRdy, mem, w1, junk), NextAsked(p, a, req, respRdy))
  {
  }

  /** One cycle of a port: what it answers, and what it keeps. */
  lemma PortStep(p: Port, w: Write, mem: seq<nat>, a: Asked, req: ReadReq, respRdy: bool, w1: Write, junk: nat)
    requires PortOk(p, w, mem) && AskedOk(p, a) && (req.val ==> req.addr < |mem|) && (w1.val ==> w1.addr < |mem|)
    ensures p.val <==> a.answered < |a.addrs|
    ensures p.val ==> a.addrs[a.answered] < |mem| && Response(p, w) == mem[a.addrs[a.answered]]
    ensures NextAsked(p, a, req, respRdy)
      == Asked(a.addrs + Maybe(req.val && (!p.val || respRdy), req.addr), a.answered + if p.val && respRdy then 1 else 0)
    ensures PortOk(NextPort(p, req, respRdy, mem, w1, junk), w1, if w1.val then mem[w1.addr := w1.data] else mem)
    ensures AskedOk(NextPort(p, req, respRdy, mem, w1, junk), NextAsked(p, a, req, respRdy))
  {
    PortKeeps(p, w, mem, req, respRdy, w1, junk);
    AskedKeeps(p, a, req, respRdy, mem, w1, junk);
    hide NextPort;
  }

  /** The run so far: initial contents, the write input of every cycle, both ports' requests. */
  datatype Log = Log(init: seq<nat>, writes: seq<Write>, asked0: Asked, asked1: Asked)

  class Mem {
    var mem: seq<nat>
    var w: Write
    var p0: Port
    var p1: Port
    ghost var log: Log

    ghost predicate Valid()
      reads this
    {
      && mem == Replay(log.init, log.writes)
      && PortOk(p0, w, mem) && PortOk(p1, w, mem)
      && AskedOk(p0, log.asked0) && AskedOk(p1, log.asked1)
    }

    constructor (contents: seq<nat>)
      ensures Valid() && mem == contents && log == Log(contents, [], Asked([], 0), Asked([], 0))
    {
      mem, w, p0, p1 := contents, Write(false, 0, 0), Port(false, 0, 0), Port(false, 0, 0);
      log := Log(contents, [], Asked([], 0), Asked([], 0));
    }

    /** One clock edge. On each port, a valid response is the word that a plain array holds
        after the writes of all earlier cycles at the address of the oldest request not
        answered yet; the junk inputs cannot be observed. */
    method Step(w1: Write, req0: ReadReq, rdy0: bool, req1: ReadReq, rdy1: bool, junk0: nat, junk1: nat)
      returns (val0: bool, resp0: nat, val1: bool, resp1: nat)
      requires Valid() && (w1.val ==> w1.addr < |mem|)
      requires (req0.val ==> req0.addr < |mem|) && (req1.val ==> req1.addr < |mem|)
      modifies this
      ensures Valid() && |mem| == old(|mem|) && log.init == old(log.init) && log.writes == old(log.writes) + [w1]
      ensures val0 == (old(log.asked0.answered) < |old(log.asked0.addrs)|)
      ensures val1 == (old(log.asked1.answered) < |old(log.asked1.addrs)|)
      ensures val0 ==>
        && old(log.asked0.addrs)[old(log.asked0.answered)] < |log.init|
        && resp0 == Replay(log.init, old(log.writes))[old(log.asked0.addrs)[old(log.asked0.answered)]]
      ensures val1 ==>
        && old(log.asked1.addrs)[old(log.asked1.answered)] < |log.init|
        && resp1 == Replay(log.init, old(log.writes))[old(log.asked1.addrs)[old(log.asked1.answered)]]
      ensures log.asked0 == Asked(old(log.asked0.addrs) + Maybe(req0.val && (!val0 || rdy0), req0.addr),
                                  old(log.asked0.answered) + if val0 && rdy0 then 1 else 0)
      ensures log.asked1 == Asked(old(log.asked1.addrs) + Maybe(req1.val && (!val1 || rdy1), req1.addr),
                                  old(log.asked1.answered) + if val1 && rdy1 then 1 else 0)
    {
      hide NextPort, PortOk, AskedOk, Response, Replay, NextAsked;
      val0, resp0 := p0.val, Response(p0, w);
      val1, resp1 := p1.val, Response(p1, w);
      PortStep(p0, w, mem, log.asked0, req0, rdy0, w1, junk0);
      PortStep(p1, w, mem, log.asked1, req1, rdy1, w1, junk1);
      PushWrite(log.init, log.writes, w1);
      log := Log(log.init, log.writes + [w1], NextAsked(p0, log.asked0, req0, rdy0), NextAsked(p1, log.asked1, req1, rdy1));
      p0, p1, w := NextPort(p0, req0, rdy0, mem, w1, junk0), NextPort(p1, req1, rdy1, mem, w1, junk1), w1;
      mem := if w1.val then mem[w1.addr := w1.data] else mem;
    }
  }
}
