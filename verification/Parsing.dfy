/** How histories break into frames. */
module Parsing {
  import opened Streams

  /** A frame as a driver must send it: last set on the final beat only. */
  ghost predicate Proper(f: seq<Beat>) {
    && f != [] && f[|f| - 1].last
    && forall i :: 0 <= i < |f| - 1 ==> !f[i].last
  }

  ghost predicate AllProper(fs: seq<seq<Beat>>) {
    forall i :: 0 <= i < |fs| ==> Proper(fs[i])
  }

  ghost predicate NoLast(o: seq<Beat>) {
    forall i :: 0 <= i < |o| ==> !o[i].last
  }

  lemma {:induction false} HistoryProper(h: seq<Beat>)
    ensures AllProper(Closed(h)) && NoLast(Open(h))
  {
    if h != [] {
      HistoryProper(h[..|h| - 1]);
    }
  }

  /** Every beat of a frame or of the open rest comes from the history. */
  lemma {:induction false} HistoryClean(h: seq<Beat>, B: nat)
    requires AllClean(h, B)
    ensures AllClean(Open(h), B)
    ensures forall j :: 0 <= j < |Closed(h)| ==> AllClean(Closed(h)[j], B)
  {
    if h != [] {
      HistoryClean(h[..|h| - 1], B);
    }
  }

  lemma {:induction false} FramesAre(h: seq<Beat>)
    ensures |Frames(h)| == |Closed(h)|
    ensures forall j :: 0 <= j < |Closed(h)| ==> Frames(h)[j] == Payload(Closed(h)[j])
  {
    if h != [] {
      var init, b := h[..|h| - 1], h[|h| - 1];
      FramesAre(init);
      if b.last {
        PushPayload(Open(init), b);
      }
    }
  }

  lemma PushMore(h: seq<Beat>, b: Beat)
    requires !b.last
    ensures Closed(h + [b]) == Closed(h) && Open(h + [b]) == Open(h) + [b]
  {
    assert (h + [b])[..|h|] == h;
  }

  lemma PushLast(h: seq<Beat>, b: Beat)
    requires b.last
    ensures Closed(h + [b]) == Closed(h) + [Open(h) + [b]] && Open(h + [b]) == []
  {
    assert (h + [b])[..|h|] == h;
  }

  /** Beats without a last flag only lengthen the open frame. */
  lemma {:induction false} AppendOpen(h: seq<Beat>, part: seq<Beat>)
    requires NoLast(part)
    ensures Closed(h + part) == Closed(h) && Open(h + part) == Open(h) + part
  {
    if part == [] {
      assert h + part == h;
    } else {
      var init, b := part[..|part| - 1], part[|part| - 1];
      AppendOpen(h, init);
      PushMore(h + init, b);
      hide Closed, Open;
      assert part == init + [b];
      Assoc(h, init, [b]);
      Assoc(Open(h), init, [b]);
    }
  }

  /** A proper frame after finished ones is one more finished frame. */
  lemma AppendFrame(h: seq<Beat>, f: seq<Beat>)
    requires Open(h) == [] && Proper(f)
    ensures Closed(h + f) == Closed(h) + [f] && Open(h + f) == []
  {
    var init, b := f[..|f| - 1], f[|f| - 1];
    assert f == init + [b];
    assert NoLast(init) && b.last;
    hide Closed, Open, NoLast, Proper;
    AppendOpen(h, init);
    assert Open(h + init) == init by { assert [] + init == init; }
    PushLast(h + init, b);
    Assoc(h, init, [b]);
  }

  /** Feeding more beats keeps the finished frames, and the open frame becomes the
      beginning of the next finished one. */
  lemma {:induction false} FramesGrow(a: seq<Beat>, b: seq<Beat>)
    ensures Closed(a) <= Closed(a + b)
    ensures if |Closed(a)| == |Closed(a + b)| then Open(a) <= Open(a + b)
            else Open(a) <= Closed(a + b)[|Closed(a)|]
  {
    if b == [] {
      assert a + b == a;
    } else {
      var init, x := b[..|b| - 1], b[|b| - 1];
      FramesGrow(a, init);
      assert a + b == (a + init) + [x];
      hide Closed, Open;
      Push(a + init, x);
    }
  }

  lemma FramesOfPrefix(a: seq<Beat>, h: seq<Beat>)
    requires a <= h
    ensures Frames(a) <= Frames(h)
  {
    hide Closed, Frames;
    assert h == a + h[|a|..];
    FramesGrow(a, h[|a|..]);
    FramesAre(a);
    FramesAre(h);
  }

  lemma {:induction false} PayloadSplit(a: seq<Beat>, b: seq<Beat>)
    ensures Payload(a + b) == Payload(a) + Payload(b)
  {
    assert Payload([]) == [];
    hide Payload, Bytes;
    if b == [] {
      assert a + [] == a;
      assert Payload(a) + [] == Payload(a);
    } else {
      var init, x := b[..|b| - 1], b[|b| - 1];
      assert b == init + [x];
      PayloadSplit(a, init);
      Assoc(a, init, [x]);
      PushPayload(a + init, x);
      PushPayload(init, x);
      Assoc(Payload(a), Payload(init), Bytes(x));
    }
  }

  /** Within a frame of clean beats, every beat but the last is full. */
  lemma {:induction false} FullBeats(part: seq<Beat>, B: nat)
    requires AllClean(part, B) && NoLast(part)
    ensures |Payload(part)| == Lanes(|part|, B)
  {
    if part != [] {
      var n := |part| - 1;
      FullBeats(part[..n], B);
      NextLanes(n, B);
      assert Clean(part[n], B) && !part[n].last;
      assert Payload(part) == Payload(part[..n]) + part[n].data;
      hide Payload, AllClean, NoLast, Lanes;
    }
  }

  /** The next beat of a history that is on its way to `h`, when all frames of
      `h` are finished: either it closes a frame of `h` or more is to come. */
  lemma NextBeat(sent: seq<Beat>, b: Beat, h: seq<Beat>, B: nat) returns (f: seq<Beat>)
    requires sent + [b] <= h && Open(h) == [] && AllClean(h, B) && B > 0
    ensures f in Closed(h)
    ensures b.last ==> Payload(f) == Pending(sent) + Bytes(b)
    ensures !b.last ==> Pending(sent) + b.data <= Payload(f) && |Pending(sent)| + B < |Payload(f)|
    ensures Clean(b, B)
  {
    hide Closed, Open;
    assert b == h[|sent|];
    var rest := h[|sent| + 1..];
    assert h == (sent + [b]) + rest;
    FramesGrow(sent + [b], rest);
    HistoryProper(h);
    HistoryClean(h, B);
    Push(sent, b);
    if b.last {
      f := Open(sent) + [b];
      assert f == Closed(sent + [b])[|Closed(sent)|] == Closed(h)[|Closed(sent)|];
      PushPayload(Open(sent), b);
    } else {
      var part := Open(sent) + [b];
      assert part != [];
      f := Closed(h)[|Closed(sent)|];
      var tail := f[|part|..];
      assert f == part + tail;
      assert part[|part| - 1] == b;
      assert tail != [];
      PushPayload(Open(sent), b);
      PayloadSplit(part, tail);
      NonEmpty(tail, B);
    }
  }

  lemma NonEmpty(tail: seq<Beat>, B: nat)
    requires tail != [] && AllClean(tail, B)
    ensures Payload(tail) != []
  {
    assert Clean(tail[|tail| - 1], B);
  }
}
