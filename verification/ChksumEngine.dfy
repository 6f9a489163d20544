/** The whole checksum engine: summing pipeline, data FIFO, checksum FIFO,
    insertion and output registers, with any number of frames in flight. The
    FIFOs are unbounded queues that may delay what they show. */
module ChksumEngine {
  import opened Streams
  import opened AdderTree
  import opened Parsing
  import opened ChksumSpec
  import Pipe = ChksumPipe
  import Ins = ChksumInsert
  import opened SkidBuffer

  /** What must leave the engine for what was fed: each finished frame, in order,
      with the checksum of that very frame in its own command's field. */
  function Outcome(fed: seq<Tagged>, B: nat): seq<Beat> {
    OneEach(fed);
    Ins.PatchedAll(Closed(Beats(fed)), Results(fed), B)
  }

  lemma {:induction false} OneEach(fed: seq<Tagged>)
    ensures |Results(fed)| == |Closed(Beats(fed))|
  {
    if fed != [] {
      var init, x := fed[..|fed| - 1], fed[|fed| - 1];
      assert fed == init + [x];
      hide Results, Beats, Closed, Open, Frames, Pending;
      OneEach(init);
      PushTagged(init, x);
      Push(Beats(init), x.beat);
    }
  }

  lemma {:induction false} ResultsGrow(a: seq<Tagged>, b: seq<Tagged>)
    ensures Results(a) <= Results(a + b)
  {
    if b == [] {
      assert a + b == a;
    } else {
      var init, x := b[..|b| - 1], b[|b| - 1];
      ResultsGrow(a, init);
      assert a + b == (a + init) + [x];
      hide Results;
      PushTagged(a + init, x);
    }
  }

  lemma {:induction false} PatchedPrefix(a: seq<Beat>, b: seq<Beat>, e: Entry, B: nat)
    requires a <= b
    ensures Ins.PatchedFrame(a, e, B) <= Ins.PatchedFrame(b, e, B)
    decreases |b|
  {
    if a != b {
      assert a <= b[..|b| - 1];
      PatchedPrefix(a, b[..|b| - 1], e, B);
    }
  }

  lemma {:induction false} PatchedAllPrefix(a: seq<seq<Beat>>, b: seq<seq<Beat>>, es: seq<Entry>, B: nat)
    requires a <= b && |b| <= |es|
    ensures Ins.PatchedAll(a, es, B) <= Ins.PatchedAll(b, es, B)
    decreases |b|
  {
    if a != b {
      assert a <= b[..|b| - 1];
      PatchedAllPrefix(a, b[..|b| - 1], es, B);
    }
  }

  /** A frame under way leaves only the beginning of what the finished frame will. */
  lemma PartialPrefix(fs: seq<seq<Beat>>, k: nat, part: seq<Beat>, es: seq<Entry>, B: nat)
    requires k < |fs| <= |es| && part <= fs[k]
    ensures Ins.PatchedAll(fs[..k], es, B) + Ins.PatchedFrame(part, es[k], B) <= Ins.PatchedAll(fs, es, B)
  {
    PatchedPrefix(part, fs[k], es[k], B);
    Ins.PushFrame(fs[..k], fs[k], es, B);
    assert fs[..k] + [fs[k]] == fs[..k + 1];
    PatchedAllPrefix(fs[..k + 1], fs, es, B);
  }

  /** Insertion never runs ahead of the checksums, so what it emits is a prefix
      of the outcome. */
  lemma InsertionFollows(fed: seq<Tagged>, summed: seq<Tagged>, rest: seq<Tagged>, waiting: seq<Entry>,
                         t: Ins.Trace, queued: seq<Beat>, frame: bool, p: Ins.Patch, B: nat)
    requires fed == summed + rest && Results(summed) == t.entries + waiting
    requires Beats(fed) == t.inp + queued
    requires if frame then Ins.Within(t, p, B) else Ins.Between(t, B)
    ensures t.out <= Outcome(fed, B)
  {
    hide Results, Beats, Closed, Open, Ins.PatchedAll, Ins.PatchedFrame, Ins.Placing;
    var es, fs, c := Results(fed), Closed(Beats(fed)), Closed(t.inp);
    OneEach(fed);
    ResultsGrow(summed, rest);
    FramesGrow(t.inp, queued);
    assert t.entries <= es;
    assert es == t.entries + es[|t.entries|..];
    Ins.MoreEntries(c, t.entries, es[|t.entries|..], B);
    assert c == fs[..|c|];
    if frame {
      assert t.entries[|c|] == es[|c|];
      PartialPrefix(fs, |c|, Open(t.inp), es, B);
    } else {
      PatchedAllPrefix(c, fs, es, B);
    }
  }

  ghost predicate AllOnBus(bs: seq<Beat>, B: nat) {
    forall i :: 0 <= i < |bs| ==> OnBus(bs[i], B)
  }

  lemma PopOne<T>(popped: seq<T>, fifo: seq<T>, pop: bool, head: T)
    requires pop ==> fifo != [] && head == fifo[0]
    ensures popped + fifo == (popped + Maybe(pop, head)) + Rest(fifo, pop)
  {
    if pop { assert fifo == [head] + fifo[1..]; }
  }

  /** What a ready reader takes from a queue. */
  function Popped<T>(ready: bool, fifo: seq<T>): seq<T> {
    if ready && fifo != [] then [fifo[0]] else []
  }

  lemma PoppedIs<T>(ready: bool, fifo: seq<T>, fires: bool, head: T)
    requires fires == (ready && fifo != []) && (fires ==> head == fifo[0])
    ensures Maybe(fires, head) == Popped(ready, fifo)
  {
  }

  function Rest<T>(fifo: seq<T>, pop: bool): seq<T> {
    if pop && fifo != [] then fifo[1..] else fifo
  }

  lemma FedOne(fed: seq<Tagged>, fires: bool, x: Tagged)
    ensures Beats(fed + Maybe(fires, x)) == Beats(fed) + Maybe(fires, x.beat)
  {
    if fires { PushTagged(fed, x); } else { assert fed + [] == fed; }
  }

  /** The FIFOs hold what has been pushed into them and not yet popped. */
  ghost predicate Linked(fed: seq<Tagged>, pushed: seq<Entry>, t: Ins.Trace,
                         dataFifo: seq<Beat>, csumFifo: seq<Entry>, B: nat) {
    && Beats(fed) == t.inp + dataFifo
    && pushed == t.entries + csumFifo
    && AllOnBus(dataFifo, B) && AllOnBus(t.out, B)
  }

  lemma HeadOnBus(fed: seq<Tagged>, pushed: seq<Entry>, t: Ins.Trace,
                  dataFifo: seq<Beat>, csumFifo: seq<Entry>, B: nat)
    requires Linked(fed, pushed, t, dataFifo, csumFifo, B)
    ensures dataFifo != [] ==> OnBus(dataFifo[0], B)
  {
  }

  lemma LinkFeed(fed: seq<Tagged>, pushed: seq<Entry>, t: Ins.Trace, dataFifo: seq<Beat>, csumFifo: seq<Entry>, B: nat,
                 feed: bool, x: Tagged, more: seq<Entry>)
    requires Linked(fed, pushed, t, dataFifo, csumFifo, B) && OnBus(x.beat, B)
    ensures Linked(fed + Maybe(feed, x), pushed + more, t, dataFifo + Maybe(feed, x.beat), csumFifo + more, B)
  {
    hide Beats;
    FedOne(fed, feed, x);
    Assoc(t.inp, dataFifo, Maybe(feed, x.beat));
    Assoc(t.entries, csumFifo, more);
  }

  lemma LinkPop(fed: seq<Tagged>, pushed: seq<Entry>, t: Ins.Trace, dataFifo: seq<Beat>, csumFifo: seq<Entry>, B: nat,
                popData: bool, head: Beat, emitted: Beat, popEntry: bool, e: Entry)
    requires Linked(fed, pushed, t, dataFifo, csumFifo, B) && OnBus(emitted, B)
    requires popData ==> dataFifo != [] && head == dataFifo[0]
    requires popEntry ==> csumFifo != [] && e == csumFifo[0]
    ensures Linked(fed, pushed,
                   Ins.Trace(t.entries + Maybe(popEntry, e), t.inp + Maybe(popData, head), t.out + Maybe(popData, emitted)),
                   Rest(dataFifo, popData), Rest(csumFifo, popEntry), B)
  {
    hide Beats;
    PopOne(t.inp, dataFifo, popData, head);
    PopOne(t.entries, csumFifo, popEntry, e);
  }

  datatype Fifos = Fifos(data: seq<Beat>, csums: seq<Entry>)

  /** The cycles that the inserting half still needs. */
  function OutWeight(f: Fifos, frame: bool, out: Register, spare: Register, rdy: bool): nat {
    4 * |f.data| + 2 * |f.csums| + (if frame then 1 else 0) + SkidWeight(out, spare, rdy)
  }

  /** The output registers after a cycle in which a beat was pushed or not. */
  predicate Moved(out: Register, spare: Register, rdy: bool, out1: Register, spare1: Register, rdy1: bool, pushed: bool, downRdy: bool) {
    && (pushed ==> rdy)
    && (downRdy ==> rdy1 && spare1.Empty? && (out1.Holds? ==> if rdy then pushed else spare.Holds?))
    && (!downRdy ==> SkidWeight(out1, spare1, rdy1) <= SkidWeight(out, spare, rdy) + if pushed then 3 else 0)
  }

  lemma MovedIs(out: Register, spare: Register, rdy: bool, out1: Register, spare1: Register, rdy1: bool, pushed: bool, beat: Beat, downRdy: bool)
    requires (pushed ==> rdy) && (downRdy ==> rdy1)
    requires downRdy ==> spare1.Empty? && out1 == if rdy then (if pushed then Holds(beat) else Register.Empty) else spare
    requires !downRdy ==> SkidWeight(out1, spare1, rdy1) <= SkidWeight(out, spare, rdy) + if pushed then 3 else 0
    ensures Moved(out, spare, rdy, out1, spare1, rdy1, pushed, downRdy)
  {
  }

  /** A cycle of the inserting half never adds work. With a ready reader and both FIFOs showing
      their heads it does some, unless it waits for a checksum. */
  lemma OutFalls(f: Fifos, frame: bool, out: Register, spare: Register, rdy: bool, showData: bool, showEntry: bool, downRdy: bool,
                 f1: Fifos, frame1: bool, out1: Register, spare1: Register, rdy1: bool)
    requires f1 == Fifos(Rest(f.data, showData && frame && rdy), Rest(f.csums, showEntry && !frame))
    requires frame1 ==> frame || (showEntry && f.csums != [])
    requires Moved(out, spare, rdy, out1, spare1, rdy1, showData && frame && rdy && f.data != [], downRdy)
    ensures var w, w1 := OutWeight(f, frame, out, spare, rdy), OutWeight(f1, frame1, out1, spare1, rdy1);
      && w1 <= w
      && (showData && showEntry && downRdy && (frame ==> f.data != []) && w1 == w ==> !frame && f.csums == [] && w == 4 * |f.data|)
  {
  }

  /** What the summing half adds to the FIFOs. */
  lemma MoreSums(f1: Fifos, fed: bool, beat: Beat, owed: seq<Entry>, f2: Fifos, frame: bool, out: Register, spare: Register, rdy: bool)
    requires f2 == Fifos(f1.data + Maybe(fed, beat), f1.csums + owed)
    ensures OutWeight(f2, frame, out, spare, rdy) == OutWeight(f1, frame, out, spare, rdy) + 2 * |owed| + if fed then 4 else 0
  {
  }

  lemma RestOf<T>(fifo: seq<T>, ready: bool, pop: bool)
    requires pop == (ready && fifo != [])
    ensures Rest(fifo, pop) == Rest(fifo, ready)
  {
  }

  lemma NonEmptyRest(taken: seq<Beat>, rest: seq<Beat>)
    requires |Closed(taken + rest)| > |Closed(taken)|
    ensures rest != []
  {
    assert taken + [] == taken;
  }

  /** Finished frames with no open rest leave nothing to take. */
  lemma AllTaken(a: seq<Beat>, b: seq<Beat>)
    requires Open(a) == [] && Open(a + b) == [] && |Closed(a)| == |Closed(a + b)|
    ensures b == []
  {
    hide Closed, Open, Frames, Pending;
    if b != [] {
      var init, x := b[..|b| - 1], b[|b| - 1];
      assert a + b == (a + init) + [x];
      FramesGrow(a, init);
      Push(a + init, x);
      assert false;
    }
  }

  class Engine {
    const levels: nat
    const B: nat
    const pipe: Pipe.SumPipe
    const ins: Ins.Inserter
    const skid: Skid

    var fifos: Fifos

    ghost predicate Valid()
      reads this, pipe, ins, skid
    {
      && 2 <= levels <= 8 && B == Pow2(levels) == ins.B && 2 <= B && pipe.levels == levels
      && pipe.Valid() && ins.Valid() && skid.Valid()
      && Linked(pipe.t.fed, pipe.t.pushed, ins.t, fifos.data, fifos.csums, B)
      && ins.t.out == skid.inp
    }

    constructor (levels: nat)
      requires 2 <= levels <= 8
      ensures Valid() && this.levels == levels && fresh(pipe) && fresh(ins) && fresh(skid)
      ensures !pipe.transfer && pipe.t.fed == [] && skid.sent == [] && skid.out.Empty?
    {
      this.levels, B := levels, Pow2(levels);
      TwoWide(levels);
      pipe := new Pipe.SumPipe(levels);
      ins := new Ins.Inserter(Pow2(levels));
      skid := new Skid();
      fifos := Fifos([], []);
    }

    /** One clock edge. `showData` and `showEntry` say whether a FIFO presents its head;
        the output register `skid.out` drives the output interface during the cycle. */
    method Step(cmdVal: bool, cmd: Cmd, val: bool, beat: Beat, fifoRdy: bool,
                showData: bool, showEntry: bool, downRdy: bool)
      returns (cmdRdy: bool, rdy: bool)
      requires Valid()
      requires OnBus(beat, B)
      modifies this, pipe, ins, skid
      ensures Valid()
      ensures cmdRdy == !old(pipe.transfer) && rdy == (old(pipe.transfer) && fifoRdy)
      ensures pipe.t.fed == old(pipe.t.fed) + Maybe(val && rdy, Tagged(beat, old(pipe.cmd)))
      ensures pipe.cmd == if cmdVal && cmdRdy then cmd else old(pipe.cmd)
      ensures pipe.transfer == if cmdVal && cmdRdy then true
                               else if val && rdy && beat.last then false else old(pipe.transfer)
      ensures skid.sent == old(skid.sent) + Leaving(old(skid.out), downRdy)
      // A checksum that is shown starts its frame, and a started frame moves whenever it can.
      ensures ins.t.entries == old(ins.t.entries) + Popped(showEntry && !old(ins.frame), old(fifos.csums))
      ensures ins.t.inp == old(ins.t.inp) + Popped(showData && old(ins.frame) && old(skid.rdy), old(fifos.data))
      // A cycle adds work only for the beat it takes in; without stalls it does some.
      ensures Rank() <= old(Rank()) + if val && rdy then levels + 7 else 0
      ensures showData && showEntry && downRdy && !(val && rdy) ==> Rank() < old(Rank()) || old(Starved())
    {
      hide *;
      Sized();
      if ins.frame {
        OwesData();
      }
      RankIs();
      StarvedIs();
      ghost var f0, frame0, out0, spare0, rdy0 := fifos, ins.frame, skid.out, skid.spare, skid.rdy;
      ghost var stages0, res0, acc0, cmd0 := pipe.stages, pipe.res, pipe.acc, pipe.cmd;
      Forward(showData, showEntry, downRdy);
      ghost var f1 := fifos;
      cmdRdy, rdy := Feed(cmdVal, cmd, val, beat, fifoRdy);
      RankIs();
      OutFalls(f0, frame0, out0, spare0, rdy0, showData, showEntry, downRdy, f1, ins.frame, skid.out, skid.spare, skid.rdy);
      Pipe.SumFalls(stages0, Pipe.Stage(val && rdy, beat.last, WordLanes(Kept(beat)), cmd0), acc0, res0, levels);
      MoreSums(f1, val && rdy, beat, Pipe.Owed(res0), fifos, ins.frame, skid.out, skid.spare, skid.rdy);
    }

    /** Nothing left to do but with beats of a frame that is not complete. */
    ghost predicate Starved()
      reads this, pipe, ins, skid
    {
      && !ins.frame && fifos.csums == [] && Pipe.SumWeight(pipe.stages, pipe.res) == 0
      && OutWeight(fifos, ins.frame, skid.out, skid.spare, skid.rdy) == 4 * |fifos.data|
    }

    lemma StarvedEmpty()
      ensures Starved() ==> skid.out.Empty?
    {
    }

    lemma StarvedIs()
      ensures Starved() <==>
        && !ins.frame && fifos.csums == [] && Pipe.SumWeight(pipe.stages, pipe.res) == 0
        && OutWeight(fifos, ins.frame, skid.out, skid.spare, skid.rdy) == 4 * |fifos.data|
    {
    }

    lemma Sized()
      requires Valid()
      ensures |pipe.stages| + 1 == levels
    {
      hide Pipe.FlowOk, Pipe.SumOk;
      Pipe.TreeShape(pipe.stages, pipe.t.slots, levels);
    }

    lemma RankIs()
      ensures Rank() == Pipe.SumWeight(pipe.stages, pipe.res) + OutWeight(fifos, ins.frame, skid.out, skid.spare, skid.rdy)
    {
    }

    /** The input side of a clock edge. */
    method Feed(cmdVal: bool, cmd: Cmd, val: bool, beat: Beat, fifoRdy: bool)
      returns (cmdRdy: bool, rdy: bool)
      requires Valid()
      requires OnBus(beat, B)
      modifies this, pipe
      ensures Valid()
      ensures cmdRdy == !old(pipe.transfer) && rdy == (old(pipe.transfer) && fifoRdy)
      ensures pipe.t.fed == old(pipe.t.fed) + Maybe(val && rdy, Tagged(beat, old(pipe.cmd)))
      ensures pipe.cmd == if cmdVal && cmdRdy then cmd else old(pipe.cmd)
      ensures pipe.transfer == if cmdVal && cmdRdy then true
                               else if val && rdy && beat.last then false else old(pipe.transfer)
      ensures fifos == Fifos(old(fifos.data) + Maybe(val && rdy, beat), old(fifos.csums) + Pipe.Owed(old(pipe.res)))
      ensures old(pipe.stages) != [] && pipe.stages
        == Pipe.NextStages(old(pipe.stages), Pipe.Stage(val && rdy, beat.last, WordLanes(Kept(beat)), old(pipe.cmd)))
      ensures pipe.res == Pipe.NextResult(old(pipe.stages)[|old(pipe.stages)| - 1], old(pipe.acc), levels)
    {
      hide Pow2, Linked, Pipe.SumPipe.Valid, Ins.Inserter.Valid, Skid.Valid, Maybe, Pipe.Owed, OnBus, Pipe.NextStages, Pipe.NextResult, WordLanes, Kept, Pipe.Shifted, Pipe.SlotOf;
      var push: Pipe.Result;
      cmdRdy, rdy, push := pipe.Step(cmdVal, cmd, val, beat, fifoRdy);
      LinkFeed(old(pipe.t.fed), old(pipe.t.pushed), ins.t, fifos.data, fifos.csums, B,
               val && rdy, Tagged(beat, old(pipe.cmd)), Pipe.Owed(push));
      fifos := Fifos(fifos.data + Maybe(val && rdy, beat), fifos.csums + Pipe.Owed(push));
    }

    /** The output side of a clock edge. */
    method Forward(showData: bool, showEntry: bool, downRdy: bool)
      requires Valid()
      modifies this, ins, skid
      ensures Valid()
      ensures skid.sent == old(skid.sent) + Leaving(old(skid.out), downRdy)
      ensures ins.t.entries == old(ins.t.entries) + Popped(showEntry && !old(ins.frame), old(fifos.csums))
      ensures ins.t.inp == old(ins.t.inp) + Popped(showData && old(ins.frame) && old(skid.rdy), old(fifos.data))
      ensures fifos == Fifos(Rest(old(fifos.data), showData && old(ins.frame) && old(skid.rdy)), Rest(old(fifos.csums), showEntry && !old(ins.frame)))
      ensures ins.frame ==> old(ins.frame) || (showEntry && old(fifos.csums) != [])
      ensures Moved(old(skid.out), old(skid.spare), old(skid.rdy), skid.out, skid.spare, skid.rdy,
                    showData && old(ins.frame) && old(skid.rdy) && old(fifos.data) != [], downRdy)
    {
      hide Pow2, Linked, Pipe.SumPipe.Valid, Ins.Inserter.Valid, Skid.Valid, Rest, Maybe, Popped, Leaving, Moved, SkidWeight;
      HeadOnBus(pipe.t.fed, pipe.t.pushed, ins.t, fifos.data, fifos.csums, B);
      var dataVal, entryVal := showData && fifos.data != [], showEntry && fifos.csums != [];
      var head := if dataVal then fifos.data[0] else Beat(seq(B, _ => 0), false, 0);
      var entry := if entryVal then fifos.csums[0] else Entry(0, Cmd(false, 0));
      var skidRdy := skid.rdy;
      var entryRdy, dataRdy, emitted := ins.Step(entryVal, entry, dataVal, head, skidRdy);
      skid.Step(dataVal && dataRdy, emitted, downRdy);
      LinkPop(pipe.t.fed, pipe.t.pushed, old(ins.t), fifos.data, fifos.csums, B,
              dataVal && dataRdy, head, emitted, entryVal && entryRdy, entry);
      PoppedIs(showEntry && !old(ins.frame), fifos.csums, entryVal && entryRdy, entry);
      PoppedIs(showData && old(ins.frame) && skidRdy, fifos.data, dataVal && dataRdy, head);
      MovedIs(old(skid.out), old(skid.spare), skidRdy, skid.out, skid.spare, skid.rdy, dataVal && dataRdy, emitted, downRdy);
      RestOf(fifos.data, showData && old(ins.frame) && skidRdy, dataVal && dataRdy);
      RestOf(fifos.csums, showEntry && !old(ins.frame), entryVal && entryRdy);
      fifos := Fifos(Rest(fifos.data, dataVal && dataRdy), Rest(fifos.csums, entryVal && entryRdy));
    }

    /** A frame under way has its next beat in the data FIFO. */
    lemma OwesData()
      requires Valid() && ins.frame
      ensures fifos.data != []
    {
      hide Results, Beats, Closed, Ins.PatchedAll, Ins.PatchedFrame, Ins.Placing, Pipe.TreeOk, Pow2;
      OneEach(pipe.t.fed);
      ResultsGrow(pipe.t.summed, Pipe.InFlight(pipe.t.slots));
      NonEmptyRest(ins.t.inp, fifos.data);
    }

    /** What is left to do: cycles of the beats in the tree, of waiting sums, of queued beats
        and of the output registers. */
    ghost function Rank(): nat
      reads this, pipe, ins, skid
    {
      Pipe.SumWeight(pipe.stages, pipe.res) + OutWeight(fifos, ins.frame, skid.out, skid.spare, skid.rdy)
    }

    /** Between frames, an engine with nothing to do has nothing inside. */
    lemma Settled()
      requires Valid() && !pipe.transfer && Starved()
      ensures Quiet()
    {
      hide Results, Beats, Closed, Open, Ins.PatchedAll, Pipe.TreeOk, Pow2, Pipe.TreeWeight;
      Pipe.WeightZero(pipe.stages);
      SlotsEmpty(pipe.stages, pipe.t.slots, levels);
      OneEach(pipe.t.fed);
      var fed, data := pipe.t.fed, fifos.data;
      assert pipe.t.summed + [] == pipe.t.summed == fed;
      assert ins.t.entries + [] == ins.t.entries;
      FramesGrow(ins.t.inp, data);
      if data != [] {
        AllTaken(ins.t.inp, data);
      }
    }

    /** Nothing is inside: no stage, FIFO or register holds anything. */
    predicate Quiet()
      reads this, pipe, ins, skid
    {
      && (forall i :: 0 <= i < |pipe.stages| ==> !pipe.stages[i].valid)
      && pipe.res.NoResult? && fifos == Fifos([], []) && !ins.frame
      && skid.out.Empty? && skid.spare.Empty?
    }

    /** Conservation: a quiet engine has delivered the whole outcome. */
    lemma Complete()
      requires Valid() && Quiet()
      ensures skid.sent == Outcome(pipe.t.fed, B)
    {
      hide Results, Beats, Closed, Ins.PatchedAll, Pipe.TreeOk;
      SlotsEmpty(pipe.stages, pipe.t.slots, levels);
      assert pipe.t.summed + [] == pipe.t.summed == pipe.t.fed;
      assert pipe.t.pushed + [] == pipe.t.pushed == ins.t.entries + [] == ins.t.entries;
      assert ins.t.inp + [] == ins.t.inp;
    }

    /** In every reachable state, what has left, and the beat on offer, is a prefix of
        the outcome of what was fed. */
    lemma Correct()
      requires Valid()
      ensures skid.sent <= skid.sent + Item(skid.out) <= Outcome(pipe.t.fed, B)
    {
      hide Outcome, Results, Beats, Ins.Within, Ins.Between, Pipe.TreeOk;
      var waiting := fifos.csums + Pipe.Owed(pipe.res);
      Assoc(ins.t.entries, fifos.csums, Pipe.Owed(pipe.res));
      InsertionFollows(pipe.t.fed, pipe.t.summed, Pipe.InFlight(pipe.t.slots), waiting,
                       ins.t, fifos.data, ins.frame, ins.patch, B);
      assert skid.sent + Item(skid.out) <= skid.inp;
    }
  }

  lemma SlotsEmpty(stages: seq<Pipe.Stage>, slots: seq<Pipe.Slot>, levels: nat)
    requires Pipe.TreeOk(stages, slots, levels)
    requires forall i :: 0 <= i < |stages| ==> !stages[i].valid
    ensures Pipe.InFlight(slots) == []
  {
    forall i | 0 <= i < |slots| ensures slots[i] == Pipe.Slot.Empty {
      assert Pipe.StageOk(stages[i], slots[i], i, levels);
    }
    Pipe.AllEmpty(slots);
  }

  lemma TwoWide(levels: nat)
    requires 2 <= levels
    ensures 2 <= Pow2(levels)
  {
    assert Pow2(levels) == 2 * Pow2(levels - 1);
  }
}
