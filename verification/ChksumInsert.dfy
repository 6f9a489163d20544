/** The inserting half of the checksum engine: it pairs each frame in the data
    FIFO with its entry in the checksum FIFO and overwrites two byte lanes. */
module ChksumInsert {
  import opened Streams
  import opened ChksumSpec

  function HighByte(c: nat): byte { (c / 256) % 256 }
  function LowByte(c: nat): byte { c % 256 }

  /** One byte of a frame after insertion. `lane` counts byte lanes from the low
      end of the bus, over all beats of the frame. */
  function PatchedByte(x: byte, lane: nat, e: Entry): byte {
    if !e.cmd.enable then x
    else if lane == e.cmd.offset then HighByte(e.csum)
    else if lane == e.cmd.offset + 1 then LowByte(e.csum)
    else x
  }

  function PatchedBeat(b: Beat, at: nat, e: Entry): Beat {
    b.(data := seq(|b.data|, i requires 0 <= i < |b.data| => PatchedByte(b.data[i], at + (|b.data| - 1 - i), e)))
  }

  function PatchedFrame(beats: seq<Beat>, e: Entry, B: nat): seq<Beat> {
    if beats == [] then []
    else
      var n := |beats| - 1;
      PatchedFrame(beats[..n], e, B) + [PatchedBeat(beats[n], Lanes(n, B), e)]
  }

  function PatchedAll(frames: seq<seq<Beat>>, es: seq<Entry>, B: nat): seq<Beat>
    requires |frames| <= |es|
  {
    if frames == [] then []
    else
      var n := |frames| - 1;
      PatchedAll(frames[..n], es, B) + PatchedFrame(frames[n], es[n], B)
  }

  lemma PushPatched(beats: seq<Beat>, b: Beat, e: Entry, B: nat)
    ensures PatchedFrame(beats + [b], e, B) == PatchedFrame(beats, e, B) + [PatchedBeat(b, Lanes(|beats|, B), e)]
  {
    assert (beats + [b])[..|beats|] == beats;
  }

  lemma PushFrame(frames: seq<seq<Beat>>, f: seq<Beat>, es: seq<Entry>, B: nat)
    requires |frames| < |es|
    ensures PatchedAll(frames + [f], es, B) == PatchedAll(frames, es, B) + PatchedFrame(f, es[|frames|], B)
  {
    assert (frames + [f])[..|frames|] == frames;
  }

  lemma {:induction false} MoreEntries(frames: seq<seq<Beat>>, es: seq<Entry>, more: seq<Entry>, B: nat)
    requires |frames| <= |es|
    ensures PatchedAll(frames, es + more, B) == PatchedAll(frames, es, B)
  {
    if frames != [] {
      MoreEntries(frames[..|frames| - 1], es, more, B);
    }
  }

  /** The registers that steer the insertion. */
  datatype Patch = Patch(csum: nat, enable: bool, offset: nat, split: bool)

  /** The bus word leaving the data FIFO this cycle. */
  function Insert(p: Patch, b: Beat, B: nat): Beat
    requires |b.data| == B >= 2
  {
    if !p.enable || p.offset >= B then b
    else if p.split then b.(data := b.data[B - 1 := LowByte(p.csum)])
    else if p.offset == B - 1 then b.(data := b.data[0 := HighByte(p.csum)])
    else b.(data := b.data[B - 1 - p.offset := HighByte(p.csum)][B - 2 - p.offset := LowByte(p.csum)])
  }

  function NextPatch(p: Patch, B: nat): Patch {
    if !p.enable then p
    else if p.offset >= B then p.(offset := p.offset - B)
    else if p.split then p.(enable := false)
    else if p.offset == B - 1 then p.(split := true)
    else p.(enable := false)
  }

  /** Where the insertion stands after the lanes below `at`. */
  ghost predicate Placing(p: Patch, e: Entry, at: nat, B: nat) {
    && p.csum == e.csum
    && if !e.cmd.enable then !p.enable
       else if p.enable && !p.split then at + p.offset == e.cmd.offset
       else if p.enable then p.offset == B - 1 && at == e.cmd.offset + 1
       else e.cmd.offset + 1 < at
  }

  /** Counting an offset down, with a field that may straddle two beats, hits
      exactly the two lanes of the field. */
  lemma InsertIsPatched(p: Patch, e: Entry, b: Beat, at: nat, B: nat)
    requires Placing(p, e, at, B) && |b.data| == B >= 2
    ensures Insert(p, b, B) == PatchedBeat(b, at, e)
    ensures Placing(NextPatch(p, B), e, at + B, B)
  {
    hide HighByte, LowByte;
    var x, y := Insert(p, b, B).data, PatchedBeat(b, at, e).data;
    assert |x| == |y|;
    forall i | 0 <= i < |x|
      ensures x[i] == y[i]
    {
    }
  }

  datatype Trace = Trace(entries: seq<Entry>, inp: seq<Beat>, out: seq<Beat>)

  /** Frames out are the frames in, each patched with its own entry. */
  ghost predicate Between(t: Trace, B: nat) {
    && |t.entries| == |Closed(t.inp)| && Open(t.inp) == []
    && t.out == PatchedAll(Closed(t.inp), t.entries, B)
  }

  ghost predicate Within(t: Trace, p: Patch, B: nat) {
    && |t.entries| == |Closed(t.inp)| + 1
    && var e := t.entries[|Closed(t.inp)|];
    && Placing(p, e, Lanes(|Open(t.inp)|, B), B)
    && t.out == PatchedAll(Closed(t.inp), t.entries, B) + PatchedFrame(Open(t.inp), e, B)
  }

  lemma Begin(t: Trace, e: Entry, B: nat)
    requires Between(t, B)
    ensures Within(t.(entries := t.entries + [e]), Patch(e.csum, e.cmd.enable, e.cmd.offset, false), B)
  {
    hide Closed, PatchedAll;
    MoreEntries(Closed(t.inp), t.entries, [e], B);
  }

  lemma Middle(t: Trace, p: Patch, b: Beat, B: nat)
    requires Within(t, p, B) && |b.data| == B >= 2 && !b.last
    ensures Within(t.(inp := t.inp + [b], out := t.out + [Insert(p, b, B)]), NextPatch(p, B), B)
  {
    hide Closed, Open, Frames, Pending, PatchedAll, PatchedFrame, PatchedBeat, Placing, Insert, NextPatch, Lanes;
    var e, open := t.entries[|Closed(t.inp)|], Open(t.inp);
    Push(t.inp, b);
    InsertIsPatched(p, e, b, Lanes(|open|, B), B);
    PushPatched(open, b, e, B);
    NextLanes(|open|, B);
    Assoc(PatchedAll(Closed(t.inp), t.entries, B), PatchedFrame(open, e, B), [Insert(p, b, B)]);
  }

  lemma End(t: Trace, p: Patch, b: Beat, B: nat)
    requires Within(t, p, B) && |b.data| == B >= 2 && b.last
    ensures Between(t.(inp := t.inp + [b], out := t.out + [Insert(p, b, B)]), B)
  {
    hide Closed, Open, Frames, Pending, PatchedAll, PatchedFrame, PatchedBeat, Placing, Insert, NextPatch, Lanes;
    var e, open := t.entries[|Closed(t.inp)|], Open(t.inp);
    Push(t.inp, b);
    InsertIsPatched(p, e, b, Lanes(|open|, B), B);
    PushPatched(open, b, e, B);
    PushFrame(Closed(t.inp), open + [b], t.entries, B);
    Assoc(PatchedAll(Closed(t.inp), t.entries, B), PatchedFrame(open, e, B), [Insert(p, b, B)]);
  }

  class Inserter {
    const B: nat

    var frame: bool
    var patch: Patch

    ghost var t: Trace

    ghost predicate Valid()
      reads this
    {
      && 2 <= B
      && if frame then Within(t, patch, B) else Between(t, B)
    }

    constructor (busBytes: nat)
      requires 2 <= busBytes
      ensures Valid() && B == busBytes && !frame && t == Trace([], [], [])
    {
      B, frame, patch := busBytes, false, Patch(0, false, 0, false);
      t := Trace([], [], []);
    }

    /** One clock edge; `downRdy` is the ready of the output register stage. */
    method Step(entryVal: bool, entry: Entry, dataVal: bool, beat: Beat, downRdy: bool)
      returns (entryRdy: bool, dataRdy: bool, emitted: Beat)
      requires Valid()
      requires OnBus(beat, B)
      modifies this
      ensures Valid()
      ensures entryRdy == !old(frame) && dataRdy == (old(frame) && downRdy)
      ensures t.entries == old(t.entries) + Maybe(entryVal && entryRdy, entry)
      ensures t.inp == old(t.inp) + Maybe(dataVal && dataRdy, beat)
      ensures t.out == old(t.out) + Maybe(dataVal && dataRdy, emitted)
      ensures OnBus(emitted, B)
      ensures frame == if old(frame) then !(dataVal && dataRdy && beat.last) else entryVal
    {
      hide Within, Between, NextPatch;
      entryRdy, dataRdy := !frame, frame && downRdy;
      emitted := Insert(patch, beat, B);
      if frame {
        if dataVal && downRdy {
          if beat.last { End(t, patch, beat, B); } else { Middle(t, patch, beat, B); }
          frame, patch := !beat.last, NextPatch(patch, B);
          t := t.(inp := t.inp + [beat], out := t.out + [emitted]);
        }
      } else {
        Begin(t, entry, B);
        patch := Patch(entry.csum, entry.cmd.enable, entry.cmd.offset, false);
        if entryVal {
          frame, t := true, t.(entries := t.entries + [entry]);
        }
      }
    }
  }
}

/** The output registers of the checksum engine: an output register and a spare,
    so that ready can be registered. */
module SkidBuffer {
  import opened Streams

  datatype Register = Empty | Holds(beat: Beat)

  function Item(r: Register): seq<Beat> {
    if r.Holds? then [r.beat] else []
  }

  /** What crosses the output interface in a cycle. */
  function Leaving(out: Register, downRdy: bool): seq<Beat> {
    if downRdy then Item(out) else []
  }

  lemma SameBeat(r: Register, val: bool, b: Beat, rdy: bool)
    requires val == r.Holds? && (val ==> b == r.beat)
    ensures Maybe(val && rdy, b) == Leaving(r, rdy)
  {
  }

  class Skid {
    var rdy: bool
    var out: Register
    var spare: Register

    ghost var inp: seq<Beat>
    ghost var sent: seq<Beat>

    /** Nothing is lost, duplicated or reordered, and ready is never high while
        the spare register is occupied. */
    ghost predicate Valid()
      reads this
    {
      && inp == (sent + Item(out)) + Item(spare)
      && (spare.Holds? ==> out.Holds? && !rdy)
    }

    constructor ()
      ensures Valid() && inp == [] && sent == [] && out.Empty? && spare.Empty?
    {
      rdy, out, spare := false, Empty, Empty;
      inp, sent := [], [];
    }

    /** One clock edge. A beat may be offered only while ready is high. */
    method Step(val: bool, beat: Beat, downRdy: bool)
      requires Valid()
      requires val ==> rdy
      modifies this
      ensures Valid()
      ensures inp == old(inp) + Maybe(val, beat)
      ensures sent == old(sent) + Leaving(old(out), downRdy)
      // Ready comes back as soon as the spare register is sure to be free.
      ensures rdy == (downRdy || (old(spare).Empty? && (old(out).Empty? || !val)))
      // A reader that is ready empties the registers; without one they only fill.
      ensures downRdy ==> spare.Empty? && out == if old(rdy) then (if val then Holds(beat) else Empty) else old(spare)
      ensures !downRdy ==> SkidWeight(out, spare, rdy) <= old(SkidWeight(out, spare, rdy)) + if val then 3 else 0
    {
      inp := inp + Maybe(val, beat);
      sent := sent + Leaving(out, downRdy);
      var early := downRdy || (spare.Empty? && (out.Empty? || !val));
      if rdy {
        if downRdy || out.Empty? {
          out := if val then Holds(beat) else Empty;
        } else {
          spare := if val then Holds(beat) else Empty;
        }
      } else if downRdy {
        out, spare := spare, Empty;
      }
      rdy := early;
    }
  }

  function SkidWeight(out: Register, spare: Register, rdy: bool): nat {
    (if out.Holds? then 1 else 0) + (if spare.Holds? then 2 else 0) + (if rdy then 0 else 1)
  }
}
