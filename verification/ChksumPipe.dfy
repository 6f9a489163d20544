/** The summing half of the checksum engine: command register, input mask, the
    registered adder tree, the accumulator and the result register. */
module ChksumPipe {
  import opened Streams
  import opened OnesComplement
  import opened AdderTree
  import opened ChksumSpec

  datatype Stage = Stage(valid: bool, last: bool, lanes: seq<nat>, cmd: Cmd)

  /** The result register: valid for one cycle when a frame's sum is complete. */
  datatype Result = NoResult | Some(entry: Entry)

  function Owed(r: Result): seq<Entry> {
    if r.Some? then [r.entry] else []
  }

  datatype Slot = Empty | Full(item: Tagged)

  function SlotOf(full: bool, x: Tagged): Slot {
    if full then Full(x) else Empty
  }

  function Item(s: Slot): seq<Tagged> {
    if s.Empty? then [] else [s.item]
  }

  /** The beats inside the tree, oldest first; slot 0 is the youngest. */
  function InFlight(slots: seq<Slot>): seq<Tagged> {
    if slots == [] then [] else InFlight(slots[1..]) + Item(slots[0])
  }

  /** A new slot in at the bottom, the oldest one out at the top. */
  function Shifted(slots: seq<Slot>, x: Slot): seq<Slot>
    requires slots != []
  {
    [x] + slots[..|slots| - 1]
  }

  function Top(slots: seq<Slot>): seq<Tagged>
    requires slots != []
  {
    Item(slots[|slots| - 1])
  }

  lemma {:induction false} Oldest(slots: seq<Slot>)
    requires slots != []
    ensures InFlight(slots) == Item(slots[|slots| - 1]) + InFlight(slots[..|slots| - 1])
  {
    var n := |slots|;
    if n == 1 {
      assert slots[1..] == [] && slots[..0] == [];
    } else {
      Oldest(slots[1..]);
      assert slots[1..][..n - 2] == slots[..n - 1][1..];
    }
  }

  /** Shifting loses no beat and keeps their order. */
  lemma Shift(slots: seq<Slot>, x: Slot)
    requires slots != []
    ensures Top(slots) + InFlight(Shifted(slots, x)) == InFlight(slots) + Item(x)
  {
    var rest, oldest := slots[..|slots| - 1], Item(slots[|slots| - 1]);
    Oldest(slots);
    assert ([x] + rest)[1..] == rest;
    assert InFlight([x] + rest) == InFlight(rest) + Item(x);
    hide InFlight, Item;
    Assoc(oldest, InFlight(rest), Item(x));
  }

  /** A tree stage holds partial sums of exactly the beat in its slot, in lanes
      that fit the width declared for its level. */
  ghost predicate StageOk(s: Stage, x: Slot, level: nat, levels: nat) {
    && (s.valid <==> x.Full?)
    && (s.valid ==>
      && level + 2 <= levels
      && s.last == x.item.beat.last && s.cmd == x.item.cmd
      && |s.lanes| == Pow2(levels - 2 - level)
      && FitIn(s.lanes, 17 + level)
      && Total(s.lanes) == LittleSum(Kept(x.item.beat)))
  }

  ghost predicate TreeOk(stages: seq<Stage>, slots: seq<Slot>, levels: nat) {
    && 2 <= levels <= 8 && |stages| == |slots| == levels - 1
    && forall i :: 0 <= i < |stages| ==> StageOk(stages[i], slots[i], i, levels)
  }

  function Advance(prev: Stage, cur: Stage, level: nat): Stage {
    if prev.valid then Stage(true, prev.last, Pairs(prev.lanes, 17 + level), prev.cmd)
    else cur.(valid := false)
  }

  lemma AdvanceOk(prev: Stage, cur: Stage, x: Slot, level: nat, levels: nat)
    requires level + 3 <= levels && StageOk(prev, x, level, levels)
    ensures StageOk(Advance(prev, cur, level + 1), x, level + 1, levels)
  {
    if prev.valid {
      assert Pow2(levels - 2 - level) == 2 * Pow2(levels - 2 - (level + 1));
      PairsTotal(prev.lanes, 17 + (level + 1));
    }
  }

  lemma EntryOk(b: Beat, cmd: Cmd, levels: nat)
    requires 2 <= levels && OnBus(b, Pow2(levels))
    ensures StageOk(Stage(true, b.last, WordLanes(Kept(b)), cmd), Full(Tagged(b, cmd)), 0, levels)
  {
    assert Pow2(levels) == 2 * Pow2(levels - 1) == 4 * Pow2(levels - 2);
    LanesTotal(Kept(b), Pow2(levels - 2));
  }

  /** The tree after one clock edge. */
  function NextStages(stages: seq<Stage>, entering: Stage): seq<Stage>
    requires stages != []
  {
    [entering] + seq(|stages| - 1, i requires 0 <= i < |stages| - 1 => Advance(stages[i], stages[i + 1], i + 1))
  }

  lemma TreeShape(stages: seq<Stage>, slots: seq<Slot>, levels: nat)
    requires TreeOk(stages, slots, levels)
    ensures 2 <= levels <= 8 && |stages| == |slots| == levels - 1
  {
  }

  lemma TreeStep(stages: seq<Stage>, slots: seq<Slot>, levels: nat, entering: Stage, x: Slot)
    requires TreeOk(stages, slots, levels)
    requires StageOk(entering, x, 0, levels)
    ensures TreeOk(NextStages(stages, entering), Shifted(slots, x), levels)
  {
    hide StageOk, Advance;
    var next := NextStages(stages, entering);
    var shifted := Shifted(slots, x);
    forall i | 0 <= i < |next|
      ensures StageOk(next[i], shifted[i], i, levels)
    {
      if i > 0 {
        AdvanceOk(stages[i - 1], stages[i], slots[i - 1], i - 1, levels);
      }
    }
  }

  /** The top of the tree is one lane, the word sum of the whole beat. */
  lemma TopLane(s: Stage, x: Slot, levels: nat)
    requires 2 <= levels && s.valid && StageOk(s, x, levels - 2, levels)
    ensures |s.lanes| == 1 && s.lanes[0] == LittleSum(Kept(x.item.beat)) < Pow2(15 + levels)
  {
    assert Pow2(0) == 1;
    assert s.lanes[1..] == [];
    assert Total(s.lanes[1..]) == 0;
  }

  /** `fed` is every beat taken, `summed` those that reached the accumulator. */
  ghost predicate SumOk(summed: seq<Tagged>, acc: nat, owed: seq<Entry>) {
    && acc == Canon(WordTotal(Open(Beats(summed))))
    && owed == Results(summed)
  }

  lemma SumStep(summed: seq<Tagged>, acc: nat, owed: seq<Entry>, x: Tagged, lane: nat, levels: nat)
    requires SumOk(summed, acc, owed)
    requires 2 <= levels <= 8 && lane == LittleSum(Kept(x.beat)) < Pow2(15 + levels)
    ensures
      var a := Accumulate(lane, acc, levels);
      && a <= ONES
      && SumOk(summed + [x], if x.beat.last then 0 else a,
               owed + if x.beat.last then [Entry(ONES - a, x.cmd)] else [])
  {
    hide Results, Beats, Open, WordTotal, LittleSum, Pow2, Accumulate, Kept, Canon, Closed, Frames, Payload;
    var open := Open(Beats(summed));
    AccumulateIsCanon(lane, acc, levels);
    CanonAdd(lane, WordTotal(open));
    assert Canon(0) == 0;
    PushTagged(summed, x);
    PushWord(open, x.beat);
    Push(Beats(summed), x.beat);
    NoWords();
  }

  lemma NoWords()
    ensures WordTotal([]) == 0
  {
  }

  /** `fed`: the beats taken; `summed`: those that have left the tree; `slots`: those
      still in it; `pushed`: the entries handed to the checksum FIFO. */
  datatype Trace = Trace(fed: seq<Tagged>, summed: seq<Tagged>, slots: seq<Slot>, pushed: seq<Entry>)

  class SumPipe {
    const levels: nat

    var transfer: bool
    var cmd: Cmd
    var stages: seq<Stage>
    var acc: nat
    var res: Result

    ghost var t: Trace

    ghost predicate Valid()
      reads this
    {
      && TreeOk(stages, t.slots, levels)
      && FlowOk(t.fed, t.summed, t.slots, transfer)
      && SumOk(t.summed, acc, t.pushed + Owed(res))
    }

    constructor (levels: nat)
      requires 2 <= levels <= 8
      ensures Valid() && this.levels == levels
      ensures !transfer && t.fed == [] && t.pushed == []
    {
      hide Pow2;
      this.levels := levels;
      transfer, acc, cmd, res := false, 0, Cmd(false, 0), NoResult;
      stages := seq(levels - 1, _ => Stage(false, false, [], Cmd(false, 0)));
      t := Trace([], [], seq(levels - 1, _ => Empty), []);
      new;
      AllEmpty(t.slots);
    }

    /** One clock edge, with room in the checksum FIFO; `fifoRdy` is the data FIFO's. */
    method Step(cmdVal: bool, newCmd: Cmd, val: bool, beat: Beat, fifoRdy: bool)
      returns (cmdRdy: bool, rdy: bool, push: Result)
      requires Valid()
      requires OnBus(beat, Pow2(levels))
      modifies this
      ensures Valid()
      ensures cmdRdy == !old(transfer) && rdy == (old(transfer) && fifoRdy)
      ensures push == old(res)
      ensures t.fed == old(t.fed) + Maybe(val && rdy, Tagged(beat, old(cmd)))
      ensures t.pushed == old(t.pushed) + Owed(push)
      ensures cmd == if cmdVal && cmdRdy then newCmd else old(cmd)
      ensures transfer == if cmdVal && cmdRdy then true else if val && rdy && beat.last then false else old(transfer)
      // The tree never stalls: a beat reaches the accumulator after exactly one edge per level.
      ensures old(t.slots) != [] && t.slots == Shifted(old(t.slots), SlotOf(val && rdy, Tagged(beat, old(cmd))))
      ensures old(stages) != [] && stages == NextStages(old(stages), Stage(val && rdy, beat.last, WordLanes(Kept(beat)), old(cmd)))
      ensures res == NextResult(old(stages)[|old(stages)| - 1], old(acc), levels)
    {
      hide Pow2, TreeOk, SumOk, FlowOk, WordLanes, NextStages, NextAcc, NextResult, Kept, OnBus, Shifted, Top, Maybe, SlotOf, Owed;
      TreeShape(stages, t.slots, levels);
      cmdRdy, rdy, push := !transfer, transfer && fifoRdy, res;
      var take := val && rdy;
      var top := stages[|stages| - 1];
      ghost var x := Tagged(beat, cmd);
      ghost var owed := t.pushed + Owed(res);
      var entering := Stage(take, beat.last, WordLanes(Kept(beat)), cmd);
      var next := if cmdVal && cmdRdy then true else if take && beat.last then false else transfer;

      TopStep(t.summed, acc, owed, stages, t.slots, levels);
      EnteringOk(entering, take, x, levels);
      TreeStep(stages, t.slots, levels, entering, SlotOf(take, x));
      FlowStep(t.fed, t.summed, t.slots, transfer, take, x, next);

      t := Trace(t.fed + Maybe(take, x), t.summed + Top(t.slots), Shifted(t.slots, SlotOf(take, x)), owed);
      res, acc, stages := NextResult(top, acc, levels), NextAcc(top, acc, levels), NextStages(stages, entering);
      transfer, cmd := next, if cmdVal && cmdRdy then newCmd else cmd;
    }
  }

  /** The accumulator register after the top stage is added. */
  function NextAcc(top: Stage, acc: nat, levels: nat): nat {
    if !top.valid then acc else if top.last then 0 else Sum(top, acc, levels)
  }

  /** The result register: the complement of the 16-bit sum. */
  function NextResult(top: Stage, acc: nat, levels: nat): Result {
    if top.valid && top.last then Some(Entry(ONES - Sum(top, acc, levels), top.cmd)) else NoResult
  }

  function Sum(top: Stage, acc: nat, levels: nat): (a: nat)
    ensures a <= ONES
  {
    Accumulate(if top.lanes == [] then 0 else top.lanes[0], acc, levels) % 65536
  }

  lemma TopStep(summed: seq<Tagged>, acc: nat, owed: seq<Entry>, stages: seq<Stage>, slots: seq<Slot>, levels: nat)
    requires TreeOk(stages, slots, levels)
    requires SumOk(summed, acc, owed)
    ensures
      var top := stages[|stages| - 1];
      SumOk(summed + Top(slots), NextAcc(top, acc, levels),
            owed + Owed(NextResult(top, acc, levels)))
  {
    hide Pow2, StageOk, SumOk, Accumulate, LittleSum, Kept;
    var top, x := stages[|stages| - 1], slots[|slots| - 1];
    assert top.valid <==> x.Full? by { TopValid(stages, slots, levels); }
    if top.valid {
      TopOk(stages, slots, levels);
      SumStep(summed, acc, owed, x.item, top.lanes[0], levels);
    } else {
      assert summed + [] == summed && owed + [] == owed;
    }
  }

  lemma TopValid(stages: seq<Stage>, slots: seq<Slot>, levels: nat)
    requires TreeOk(stages, slots, levels)
    ensures stages[|stages| - 1].valid <==> slots[|slots| - 1].Full?
  {
    assert StageOk(stages[levels - 2], slots[levels - 2], levels - 2, levels);
  }

  /** Every beat taken has been summed or is still in the tree, in order; without
      a command in force no frame is under way. */
  ghost predicate FlowOk(fed: seq<Tagged>, summed: seq<Tagged>, slots: seq<Slot>, transfer: bool) {
    && fed == summed + InFlight(slots)
    && (transfer || Open(Beats(fed)) == [])
  }

  lemma FlowStep(fed: seq<Tagged>, summed: seq<Tagged>, slots: seq<Slot>, transfer: bool,
                 take: bool, x: Tagged, next: bool)
    requires slots != [] && FlowOk(fed, summed, slots, transfer)
    requires !next ==> if take then x.beat.last else !transfer
    ensures FlowOk(fed + Maybe(take, x), summed + Top(slots), Shifted(slots, SlotOf(take, x)), next)
  {
    hide InFlight, Open, Beats, Results, Top, Shifted;
    var s := SlotOf(take, x);
    Shift(slots, s);
    Assoc(summed, Top(slots), InFlight(Shifted(slots, s)));
    Assoc(summed, InFlight(slots), Item(s));
    if take {
      PushTagged(fed, x);
      Push(Beats(fed), x.beat);
    } else {
      assert fed + [] == fed;
    }
  }

  lemma {:induction false} AllEmpty(slots: seq<Slot>)
    requires forall i :: 0 <= i < |slots| ==> slots[i] == Empty
    ensures InFlight(slots) == []
  {
    if slots != [] { AllEmpty(slots[1..]); }
  }

  lemma TopOk(stages: seq<Stage>, slots: seq<Slot>, levels: nat)
    requires TreeOk(stages, slots, levels) && stages[|stages| - 1].valid
    ensures slots[|slots| - 1].Full?
    ensures
      var top, x := stages[|stages| - 1], slots[|slots| - 1].item;
      && top.last == x.beat.last && top.cmd == x.cmd
      && |top.lanes| == 1 && top.lanes[0] == LittleSum(Kept(x.beat)) < Pow2(15 + levels)
  {
    hide Pow2, LittleSum, Kept, Total, FitIn;
    assert StageOk(stages[levels - 2], slots[levels - 2], levels - 2, levels);
    TopLane(stages[levels - 2], slots[levels - 2], levels);
  }

  lemma EnteringOk(s: Stage, take: bool, x: Tagged, levels: nat)
    requires 2 <= levels && OnBus(x.beat, Pow2(levels))
    requires s == Stage(take, x.beat.last, WordLanes(Kept(x.beat)), x.cmd)
    ensures StageOk(s, SlotOf(take, x), 0, levels)
  {
    if s.valid { EntryOk(x.beat, x.cmd, levels); }
  }

  /** The cycles that the beats in the tree still need: one for each level above them, and
      four for what becomes of a finished sum. */
  function TreeWeight(stages: seq<Stage>): nat {
    if stages == [] then 0
    else TreeWeight(stages[1..]) + if stages[0].valid then |stages| + 4 else 0
  }

  function ResultWeight(r: Result): nat {
    if r.Some? then 3 else 0
  }

  lemma {:induction false} WeightZero(stages: seq<Stage>)
    ensures TreeWeight(stages) == 0 <==> forall i :: 0 <= i < |stages| ==> !stages[i].valid
  {
    if stages != [] {
      WeightZero(stages[1..]);
      assert forall i :: 1 <= i < |stages| ==> stages[i] == stages[1..][i - 1];
    }
  }

  /** A shift that brings nothing in makes the tree lighter, by two at least when a sum
      leaves it. */
  lemma {:induction false} ShiftFalls(stages: seq<Stage>, next: seq<Stage>)
    requires |stages| == |next| > 0 && !next[0].valid
    requires forall i :: 0 <= i < |stages| - 1 ==> next[i + 1].valid == stages[i].valid
    ensures TreeWeight(next) + (if stages[|stages| - 1].valid then 5 else 0) <= TreeWeight(stages)
    ensures TreeWeight(stages) > 0 ==> TreeWeight(next) < TreeWeight(stages)
  {
    var n := |stages|;
    if n == 1 {
      assert stages[1..] == [] && next[1..] == [];
    } else {
      var s1, x1 := stages[1..], next[1..];
      var x2 := [next[0]] + x1[1..];
      ShiftFalls(s1, x2);
      assert x2[1..] == x1[1..];
      assert x1[0].valid == stages[0].valid;
      assert s1[|s1| - 1] == stages[n - 1];
    }
  }

  function SumWeight(stages: seq<Stage>, r: Result): nat {
    TreeWeight(stages) + ResultWeight(r)
  }

  /** A cycle of the summing half: a finished sum goes to the checksum FIFO, and a beat that
      comes in costs a cycle for each level and four more. */
  lemma SumFalls(stages: seq<Stage>, entering: Stage, acc: nat, res: Result, levels: nat)
    requires stages != []
    ensures var next, r := NextStages(stages, entering), NextResult(stages[|stages| - 1], acc, levels);
      var w, w1 := SumWeight(stages, res), SumWeight(next, r) + 2 * |Owed(res)|;
      && w1 <= w + (if entering.valid then |stages| + 4 else 0)
      && (w > 0 && !entering.valid ==> w1 < w)
  {
    hide Sum, TreeWeight, NextStages;
    Valids(stages, entering);
    var next := NextStages(stages, entering);
    var rest := next[1..];
    assert next == [entering] + rest;
    var none := [entering.(valid := false)] + rest;
    forall i | 0 <= i < |stages| - 1
      ensures none[i + 1].valid == stages[i].valid
    {
      assert none[i + 1] == rest[i] == next[i + 1];
    }
    ShiftFalls(stages, none);
    HeadWeight(entering, rest);
    HeadWeight(entering.(valid := false), rest);
  }

  lemma Valids(stages: seq<Stage>, entering: Stage)
    requires stages != []
    ensures var next := NextStages(stages, entering);
      && |next| == |stages| && next[0] == entering
      && forall i :: 0 <= i < |stages| - 1 ==> next[i + 1].valid == stages[i].valid
  {
    hide Pairs;
  }

  lemma HeadWeight(x: Stage, rest: seq<Stage>)
    ensures TreeWeight([x] + rest) == TreeWeight(rest) + if x.valid then |rest| + 5 else 0
  {
    assert ([x] + rest)[1..] == rest;
  }
}
