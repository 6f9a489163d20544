/** What the two receive formatters (Ethernet and TCP) share: they strip a header of
    varying length from every frame and shift the rest to the top of the bus, with two
    beat-wide registers and a shift amount. */
module Realigner {
  import opened Streams
  import opened Verdicts
  import PseudoStripper

  /** The number of header bytes in front of the payload. Ethernet: 14, or 18 with a VLAN
      tag. TCP: pseudo-header and as many words as the data offset says. */
  function Skip(k: Kind, s: seq<byte>): nat {
    match k
    case Eth => if 14 <= |s| && Field16(s, 12) == 0x8100 then 18 else 14
    case Tcp => if 25 <= |s| then PseudoStripper.PSEUDO + 4 * (s[24] as int / 16) else 0
    case Udp => BLOCK
  }

  /** Bytes enough to know the header length. */
  predicate Knows(k: Kind, s: seq<byte>) {
    Shortest(k) <= |s|
  }

  /** The shortest header. */
  function Shortest(k: Kind): nat {
    match k case Eth => 14 case Tcp => 32 case Udp => BLOCK
  }

  lemma SkipPrefix(k: Kind, s: seq<byte>, t: seq<byte>)
    requires Knows(k, s)
    ensures Skip(k, s + t) == Skip(k, s)
  {
  }

  /** The payload frames and headers of the accepted frames; an empty payload yields no
      data frame. */
  function Tails(k: Kind, gs: seq<seq<byte>>): seq<seq<byte>> {
    if gs == [] then []
    else
      var g := gs[|gs| - 1];
      Tails(k, gs[..|gs| - 1]) + if Skip(k, g) < |g| then [g[Skip(k, g)..]] else []
  }

  function Heads(k: Kind, gs: seq<seq<byte>>): seq<seq<byte>> {
    if gs == [] then []
    else
      var g := gs[|gs| - 1];
      Heads(k, gs[..|gs| - 1]) + [if Skip(k, g) <= |g| then g[..Skip(k, g)] else []]
  }

  /** A complete header: as long as it says. */
  predicate IsHead(k: Kind, head: seq<byte>) {
    Knows(k, head) && Skip(k, head) == |head|
  }

  lemma PushGood(k: Kind, gs: seq<seq<byte>>, head: seq<byte>, body: seq<byte>)
    requires IsHead(k, head)
    ensures Heads(k, gs + [head + body]) == Heads(k, gs) + [head]
    ensures Tails(k, gs + [head + body]) == Tails(k, gs) + Maybe(body != [], body)
  {
    assert (gs + [head + body])[..|gs|] == gs;
    SkipPrefix(k, head, body);
    assert (head + body)[..|head|] == head && (head + body)[|head|..] == body;
  }

  datatype Trace = Trace(inp: seq<Beat>, out: seq<Beat>)

  // ----- the states -----

  /** `done` are the accepted frames both machines have finished with. */
  ghost predicate Settled(k: Kind, t: Trace, done: seq<seq<byte>>, B: nat) {
    AllClean(t.out, B) && Frames(t.out) == Tails(k, done)
  }

  ghost predicate Idle(k: Kind, t: Trace, done: seq<seq<byte>>, B: nat) {
    && Settled(k, t, done, B)
    && Open(t.inp) == [] && Open(t.out) == []
    && Judge(k, Closed(t.inp)) == Verdict(done, false)
  }

  /** Inside an accepted frame. */
  ghost predicate InFrame(k: Kind, t: Trace, done: seq<seq<byte>>, B: nat) {
    && Settled(k, t, done, B)
    && Judge(k, Closed(t.inp)) == Verdict(done, false)
    && Passes(k, Open(t.inp)) && Knows(k, Pending(t.inp))
  }

  /** `rem` header bytes are still to come. */
  ghost predicate Seeking(k: Kind, t: Trace, done: seq<seq<byte>>, B: nat, rem: nat) {
    && InFrame(k, t, done, B) && Open(t.out) == []
    && Shortest(k) <= Skip(k, Pending(t.inp)) == |Pending(t.inp)| + rem
  }

  /** The header ends at byte `H` of the beat in the upper register. */
  ghost predicate First(k: Kind, t: Trace, done: seq<seq<byte>>, B: nat, head: seq<byte>, upper: seq<byte>, H: nat) {
    && InFrame(k, t, done, B) && Open(t.out) == []
    && |upper| == B && H <= B && IsHead(k, head)
    && Pending(t.inp) == head + upper[H..]
  }

  /** What is taken is the header, what was sent, and what the two registers hold. */
  ghost predicate Streaming(k: Kind, t: Trace, done: seq<seq<byte>>, B: nat, head: seq<byte>,
                            upper: seq<byte>, lower: seq<byte>, H: nat) {
    && InFrame(k, t, done, B)
    && |upper| == |lower| == B && H <= B && IsHead(k, head)
    && Pending(t.inp) == (head + Pending(t.out)) + (upper + lower)[H..]
  }

  /** The frame is in; `rest` is still to be sent. */
  ghost predicate Draining(k: Kind, t: Trace, done: seq<seq<byte>>, B: nat, head: seq<byte>, rest: seq<byte>) {
    && Settled(k, t, done, B) && Open(t.inp) == []
    && IsHead(k, head)
    && Judge(k, Closed(t.inp)) == Verdict(done + [head + (Pending(t.out) + rest)], false)
  }

  ghost predicate Finished(k: Kind, t: Trace, done: seq<seq<byte>>, B: nat, head: seq<byte>, body: seq<byte>) {
    && AllClean(t.out, B)
    && Open(t.inp) == [] && Open(t.out) == []
    && IsHead(k, head)
    && Judge(k, Closed(t.inp)) == Verdict(done + [head + body], false)
    && Frames(t.out) == Tails(k, done) + Maybe(body != [], body)
  }

  ghost predicate Discarding(k: Kind, t: Trace, done: seq<seq<byte>>, B: nat) {
    && Settled(k, t, done, B) && Open(t.out) == []
    && Judge(k, Closed(t.inp)).good == done
    && (Judge(k, Closed(t.inp)).skip || (Open(t.inp) != [] && !Passes(k, Open(t.inp))))
  }

  // ----- the steps -----

  lemma NothingPending(h: seq<Beat>)
    requires Open(h) == []
    ensures Pending(h) == []
  {
  }

  lemma PendingIs(h: seq<Beat>)
    ensures Pending(h) == Payload(Open(h))
  {
  }

  /** A beat joins the frame; `ok` says that the frame is an accepted one. */
  lemma Joins(k: Kind, t: Trace, done: seq<seq<byte>>, B: nat, b: Beat)
    requires Settled(k, t, done, B) && Judge(k, Closed(t.inp)) == Verdict(done, false)
    requires if Open(t.inp) == [] then Good(k, b.data) else Passes(k, Open(t.inp))
    requires Knows(k, Pending(t.inp) + Bytes(b))
    ensures !b.last ==> InFrame(k, t.(inp := t.inp + [b]), done, B) && Pending(t.inp + [b]) == Pending(t.inp) + b.data
    ensures b.last ==> Open(t.inp + [b]) == []
    ensures b.last ==> Judge(k, Closed(t.inp + [b])) == Verdict(done + [Pending(t.inp) + Bytes(b)], false)
  {
    hide Frames, Closed, Open, Payload, Pending, Tails, Judge, Passes, Good, Knows, AllClean;
    Push(t.inp, b);
    OpenFirst(k, Open(t.inp), b);
    PushJudge(k, Closed(t.inp), Open(t.inp) + [b]);
    PushPayload(Open(t.inp), b);
    PendingIs(t.inp);
  }

  /** Idle, or still inside the header: either way the header ends `rem` bytes from here. */
  ghost predicate Before(k: Kind, t: Trace, done: seq<seq<byte>>, B: nat, b: Beat, rem: nat) {
    || (Idle(k, t, done, B) && Good(k, b.data) && Shortest(k) <= rem == Skip(k, b.data) && Knows(k, Bytes(b)))
    || Seeking(k, t, done, B, rem)
  }

  lemma BeforeKnows(k: Kind, t: Trace, done: seq<seq<byte>>, B: nat, b: Beat, rem: nat)
    requires Before(k, t, done, B, b, rem) && OnBus(b, B)
    ensures Settled(k, t, done, B) && Judge(k, Closed(t.inp)) == Verdict(done, false) && Open(t.out) == []
    ensures if Open(t.inp) == [] then Good(k, b.data) else Passes(k, Open(t.inp))
    ensures Knows(k, Pending(t.inp) + Bytes(b))
    ensures Shortest(k) <= Skip(k, Pending(t.inp) + Bytes(b)) == |Pending(t.inp)| + rem
    ensures Pending(t.out) == []
  {
    hide Frames, Closed, Open, Payload, Pending, Tails, Judge, Good, Skip;
    NothingPending(t.out);
    if Idle(k, t, done, B) && Good(k, b.data) && Shortest(k) <= rem == Skip(k, b.data) && Knows(k, Bytes(b)) {
      NothingPending(t.inp);
      assert [] + Bytes(b) == Bytes(b);
      assert b.data == Bytes(b) + b.data[|Bytes(b)|..];
      SkipPrefix(k, Bytes(b), b.data[|Bytes(b)|..]);
    } else {
      SkipPrefix(k, Pending(t.inp), Bytes(b));
    }
  }

  lemma SplitAt(got: seq<byte>, data: seq<byte>, at: nat, n: nat)
    requires at <= n <= |data|
    ensures got + data[..n] == (got + data[..at]) + ([] + data[at..][..n - at])
    ensures n == |data| ==> got + data == (got + data[..at]) + data[at..]
  {
  }

  /** The header that `rem` more bytes complete. */
  lemma HeadFound(k: Kind, got: seq<byte>, data: seq<byte>, rem: nat, n: nat)
    requires rem <= n <= |data| && Shortest(k) <= Skip(k, got + data[..n]) == |got| + rem
    ensures IsHead(k, got + data[..rem])
  {
    SplitAt(got, data, rem, n);
    SkipPrefix(k, got + data[..rem], [] + data[rem..][..n - rem]);
  }

  /** A beat that is not the last, at or before the end of the header. */
  lemma Reach(k: Kind, t: Trace, done: seq<seq<byte>>, B: nat, b: Beat, rem: nat)
    requires Before(k, t, done, B, b, rem) && OnBus(b, B) && !b.last
    ensures rem > B ==> Seeking(k, t.(inp := t.inp + [b]), done, B, rem - B)
    ensures rem <= B ==> First(k, t.(inp := t.inp + [b]), done, B, Pending(t.inp) + b.data[..rem], b.data, rem)
  {
    BeforeKnows(k, t, done, B, b, rem);
    hide Before, Settled, Judge, Passes, Good, Pending, Open, Closed, Skip, Knows, IsHead;
    Joins(k, t, done, B, b);
    if rem <= B {
      assert b.data[..B] == b.data;
      HeadFound(k, Pending(t.inp), b.data, rem, B);
      SplitAt(Pending(t.inp), b.data, rem, B);
    }
  }

  /** A last beat in which the header ends. */
  lemma ReachLast(k: Kind, t: Trace, done: seq<seq<byte>>, B: nat, b: Beat, rem: nat)
    requires Before(k, t, done, B, b, rem) && OnBus(b, B) && b.last && rem <= B - b.pad
    ensures var head, rest := Pending(t.inp) + b.data[..rem], b.data[rem..][..B - b.pad - rem];
      && Draining(k, t.(inp := t.inp + [b]), done, B, head, rest)
      && (rest == [] ==> Finished(k, t.(inp := t.inp + [b]), done, B, head, []))
  {
    hide Before, Judge, Passes, Good, Pending, Open, Closed, Frames, Tails, AllClean, Skip, Knows, IsHead;
    hide Settled, Draining, Finished;
    BeforeKnows(k, t, done, B, b, rem);
    Joins(k, t, done, B, b);
    var got, n := Pending(t.inp), B - b.pad;
    var head, rest := got + b.data[..rem], b.data[rem..][..n - rem];
    assert Bytes(b) == b.data[..n];
    HeadFound(k, got, b.data, rem, n);
    SplitAt(got, b.data, rem, n);
    ReachedLast(k, t, done, B, b, head, rest);
  }

  lemma ReachedLast(k: Kind, t: Trace, done: seq<seq<byte>>, B: nat, b: Beat, head: seq<byte>, rest: seq<byte>)
    requires Settled(k, t, done, B) && Open(t.out) == [] && Pending(t.out) == [] && IsHead(k, head)
    requires Open(t.inp + [b]) == [] && Judge(k, Closed(t.inp + [b])) == Verdict(done + [head + ([] + rest)], false)
    ensures Draining(k, t.(inp := t.inp + [b]), done, B, head, rest)
    ensures rest == [] ==> Finished(k, t.(inp := t.inp + [b]), done, B, head, [])
  {
    hide Judge, Pending, Open, Closed, Frames, Tails, AllClean, IsHead;
    assert [] + rest == rest;
    assert Tails(k, done) + [] == Tails(k, done);
  }

  /** The beat after the one in which the header ended. */
  lemma Second(k: Kind, t: Trace, done: seq<seq<byte>>, B: nat, head: seq<byte>, upper: seq<byte>, H: nat, b: Beat)
    requires First(k, t, done, B, head, upper, H) && OnBus(b, B)
    ensures !b.last ==> Streaming(k, t.(inp := t.inp + [b]), done, B, head, upper, b.data, H)
    ensures b.last ==> Draining(k, t.(inp := t.inp + [b]), done, B, head, (upper + b.data)[H..][..2 * B - H - b.pad])
  {
    hide Judge, Good, Pending, Open, Closed, Frames, Tails, AllClean, Skip, IsHead, Payload;
    KnowsMore(k, Pending(t.inp), Bytes(b));
    OpenPasses(k, t, done, B);
    Joins(k, t, done, B, b);
    NothingPending(t.out);
    TwoWords(upper, b.data, H, B);
    if b.last {
      Trimmed(upper, b.data, H, b.pad, B);
      SplitRest(head, [], upper[H..], Bytes(b));
    } else {
      SplitRest(head, [], upper[H..], b.data);
    }
  }

  lemma KnowsMore(k: Kind, s: seq<byte>, t: seq<byte>)
    requires Knows(k, s)
    ensures Knows(k, s + t)
  {
  }

  lemma OpenPasses(k: Kind, t: Trace, done: seq<seq<byte>>, B: nat)
    requires InFrame(k, t, done, B)
    ensures Open(t.inp) != [] && Passes(k, Open(t.inp))
  {
  }

  lemma TwoWords(upper: seq<byte>, lower: seq<byte>, H: nat, B: nat)
    requires |upper| == |lower| == B && H <= B
    ensures (upper + lower)[H..] == upper[H..] + lower
    ensures (upper + lower)[H..][..B] == upper[H..] + lower[..H]
    ensures (upper + lower)[H..][B..] == lower[H..]
  {
  }

  lemma Trimmed(upper: seq<byte>, data: seq<byte>, H: nat, pad: nat, B: nat)
    requires |upper| == |data| == B && H <= B && pad <= B
    ensures (upper + data)[H..][..2 * B - H - pad] == upper[H..] + data[..B - pad]
  {
  }

  lemma SplitRest(head: seq<byte>, sent: seq<byte>, a: seq<byte>, b: seq<byte>)
    ensures ((head + sent) + a) + b == (head + sent) + (a + b) == head + (sent + (a + b))
    ensures sent == [] ==> head + sent == head
  {
  }

  /** A beat in the middle or at the end of the payload; one beat goes out. */
  lemma Pass(k: Kind, t: Trace, done: seq<seq<byte>>, B: nat, head: seq<byte>, upper: seq<byte>, lower: seq<byte>, H: nat, b: Beat)
    requires Streaming(k, t, done, B, head, upper, lower, H) && OnBus(b, B) && B > 0
    ensures var t1 := Trace(t.inp + [b], t.out + [Beat((upper + lower)[H..][..B], false, 0)]);
      && (!b.last ==> Streaming(k, t1, done, B, head, lower, b.data, H))
      && (b.last ==> Draining(k, t1, done, B, head, (lower + b.data)[H..][..2 * B - H - b.pad]))
  {
    hide Judge, Good, Pending, Open, Closed, Frames, Tails, Skip, IsHead, Payload;
    var out, sent := Beat((upper + lower)[H..][..B], false, 0), Pending(t.out);
    KnowsMore(k, Pending(t.inp), Bytes(b));
    OpenPasses(k, t, done, B);
    Joins(k, t, done, B, b);
    Push(t.out, out);
    Shifted(head, sent, upper, lower, b.data, H, B, B);
    if b.last {
      Shifted(head, sent, upper, lower, b.data, H, B, B - b.pad);
    }
  }

  /** Sending the top word and taking `n` bytes of a new one. */
  lemma Shifted(head: seq<byte>, sent: seq<byte>, upper: seq<byte>, lower: seq<byte>, data: seq<byte>, H: nat, B: nat, n: nat)
    requires |upper| == |lower| == |data| == B && H <= B && n <= B
    ensures var word, rest := (upper + lower)[H..][..B], (lower + data)[H..][..B - H + n];
      && ((head + sent) + (upper + lower)[H..]) + data[..n] == (head + (sent + word)) + rest == head + ((sent + word) + rest)
      && (n == B ==> rest == (lower + data)[H..] && data[..n] == data)
  {
    Split(upper, lower, H, B);
    Trimmed(lower, data, H, B - n, B);
    var word := (upper + lower)[H..][..B];
    Regroup(head, sent, word, lower[H..], data[..n]);
    if n == B {
      assert data[..n] == data;
      TwoWords(lower, data, H, B);
    }
  }

  lemma Split(upper: seq<byte>, lower: seq<byte>, H: nat, B: nat)
    requires |upper| == |lower| == B && H <= B
    ensures (upper + lower)[H..] == (upper + lower)[H..][..B] + lower[H..]
  {
    TwoWords(upper, lower, H, B);
    var s := (upper + lower)[H..];
    assert s == s[..B] + s[B..];
  }

  lemma Regroup(head: seq<byte>, sent: seq<byte>, word: seq<byte>, a: seq<byte>, b: seq<byte>)
    ensures ((head + sent) + (word + a)) + b == (head + (sent + word)) + (a + b) == head + ((sent + word) + (a + b))
  {
    Assoc(head + sent, word, a);
    Assoc(head, sent, word);
    Assoc(head + (sent + word), a, b);
    Assoc(head, sent + word, a + b);
  }

  /** DATA_OUTPUT_LAST: at most two beats empty the registers. */
  lemma Flush(k: Kind, t: Trace, done: seq<seq<byte>>, B: nat, head: seq<byte>, upper: seq<byte>, lower: seq<byte>, H: nat, left: nat)
    requires B > 0 && |upper| == |lower| == B && H <= B && 0 < left <= 2 * B - H
    requires Draining(k, t, done, B, head, (upper + lower)[H..][..left])
    ensures var word := (upper + lower)[H..][..B];
      && (left <= B ==>
          Finished(k, t.(out := t.out + [Beat(word, true, B - left)]), done, B, head, Pending(t.out) + word[..left]))
      && (left > B ==>
          && left - B <= B - H
          && Draining(k, t.(out := t.out + [Beat(word, false, 0)]), done, B, head, (lower + seq(B, _ => 0))[H..][..left - B]))
  {
    hide Judge, Good, Pending, Open, Closed, Frames, Tails, Skip, IsHead, Payload;
    var word, rest, sent := (upper + lower)[H..][..B], (upper + lower)[H..][..left], Pending(t.out);
    if left <= B {
      var out := Beat(word, true, B - left);
      assert Bytes(out) == word[..left] == rest;
      Push(t.out, out);
    } else {
      Push(t.out, Beat(word, false, 0));
      Unsent(upper, lower, seq(B, _ => 0), H, left, B);
      Assoc(sent, word, (lower + seq(B, _ => 0))[H..][..left - B]);
    }
  }

  lemma Unsent(upper: seq<byte>, lower: seq<byte>, zeros: seq<byte>, H: nat, left: nat, B: nat)
    requires |upper| == |lower| == |zeros| == B && H <= B < left <= 2 * B - H
    ensures (upper + lower)[H..][..left] == (upper + lower)[H..][..B] + (lower + zeros)[H..][..left - B]
  {
    TwoWords(upper, lower, H, B);
    assert (lower + zeros)[H..][..left - B] == lower[H..][..left - B];
    var s := (upper + lower)[H..];
    assert s[..left] == s[..B] + s[B..][..left - B];
  }

  /** Both machines are done with a frame. */
  lemma Finish(k: Kind, t: Trace, done: seq<seq<byte>>, B: nat, head: seq<byte>, body: seq<byte>)
    requires Finished(k, t, done, B, head, body)
    ensures Idle(k, t, done + [head + body], B)
    ensures Heads(k, done + [head + body]) == Heads(k, done) + [head]
  {
    hide Frames, Closed, Open, Tails, Heads, Judge, AllClean;
    PushGood(k, done, head, body);
  }

  lemma Reject(k: Kind, t: Trace, done: seq<seq<byte>>, B: nat, b: Beat)
    requires Idle(k, t, done, B) && !Good(k, b.data)
    ensures Discarding(k, t.(inp := t.inp + [b]), done, B)
  {
    hide Frames, Closed, Open, Tails, Judge, Passes, Good, Payload, AllClean;
    Push(t.inp, b);
    OpenFirst(k, Open(t.inp), b);
    assert Open(t.inp) + [b] == [b];
    PushJudge(k, Closed(t.inp), [b]);
  }

  lemma DiscardMore(k: Kind, t: Trace, done: seq<seq<byte>>, B: nat, b: Beat)
    requires Discarding(k, t, done, B)
    ensures if b.last then Idle(k, t.(inp := t.inp + [b]), done, B) else Discarding(k, t.(inp := t.inp + [b]), done, B)
  {
    hide Frames, Closed, Open, Tails, Judge, Passes, Payload, AllClean;
    Push(t.inp, b);
    OpenFirst(k, Open(t.inp), b);
    PushJudge(k, Closed(t.inp), Open(t.inp) + [b]);
  }

  lemma OneLine(upper: seq<byte>, lower: seq<byte>, s: nat, pad: nat, B: nat)
    requires |upper| == |lower| == B && s + pad <= B
    ensures (upper + lower)[s..][..B - s - pad] == upper[s..][..B - pad - s]
  {
  }

  /** Frame by frame: exactly the header is gone. */
  lemma {:induction false} TailsAre(k: Kind, fs: seq<seq<byte>>)
    requires forall i :: 0 <= i < |fs| ==> Skip(k, fs[i]) < |fs[i]|
    ensures |Tails(k, fs)| == |fs|
    ensures forall i :: 0 <= i < |fs| ==> fs[i] == fs[i][..Skip(k, fs[i])] + Tails(k, fs)[i]
  {
    hide Skip;
    if fs != [] {
      TailsAre(k, fs[..|fs| - 1]);
      var f := fs[|fs| - 1];
      assert f == f[..Skip(k, f)] + f[Skip(k, f)..];
    }
  }

  /** `part` is the beginning of the payload of a frame of which `f` is known. */
  predicate Underway(k: Kind, part: seq<byte>, f: seq<byte>) {
    Skip(k, f) <= |f| && part <= f[Skip(k, f)..]
  }

  lemma PartOf(k: Kind, head: seq<byte>, part: seq<byte>, more: seq<byte>)
    requires IsHead(k, head)
    ensures Underway(k, part, head + (part + more)) && Underway(k, part, (head + part) + more)
  {
    Assoc(head, part, more);
    SkipPrefix(k, head, part + more);
    assert (head + (part + more))[|head|..] == part + more;
  }
}
