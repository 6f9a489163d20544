/** Bytes, bus beats and the frames that a handshake history spells out.

    A bus word is a sequence of bytes, index 0 being the most significant byte,
    which is also the first byte on the wire. A history is the list of beats
    that crossed an interface, one per cycle with valid and ready both high. */
module Streams {

  type byte = x: int | 0 <= x < 256

  /** One beat: `pad` is the padbytes field and only counts when `last` is set. */
  datatype Beat = Beat(data: seq<byte>, last: bool, pad: nat)

  /** What a driver may legally put on a bus of `width` bytes. */
  predicate OnBus(b: Beat, width: nat) {
    |b.data| == width && b.pad < width
  }

  /** What the machines themselves emit: padding only on the last beat. */
  predicate Clean(b: Beat, width: nat) {
    OnBus(b, width) && (!b.last ==> b.pad == 0)
  }

  predicate AllClean(h: seq<Beat>, width: nat) {
    forall i :: 0 <= i < |h| ==> Clean(h[i], width)
  }

  /** The bytes a beat carries. */
  function Bytes(b: Beat): seq<byte> {
    if b.last && b.pad <= |b.data| then b.data[..|b.data| - b.pad] else b.data
  }

  /** The bytes a run of beats carries. */
  function Payload(beats: seq<Beat>): seq<byte> {
    if beats == [] then []
    else Payload(beats[..|beats| - 1]) + Bytes(beats[|beats| - 1])
  }

  /** The beats of the frame still under way at the end of a history. */
  function Open(h: seq<Beat>): (o: seq<Beat>)
    ensures |o| <= |h|
  {
    if h == [] || h[|h| - 1].last then []
    else Open(h[..|h| - 1]) + [h[|h| - 1]]
  }

  /** The finished frames of a history, each as its list of beats. */
  function Closed(h: seq<Beat>): seq<seq<Beat>> {
    if h == [] then []
    else
      var init, b := h[..|h| - 1], h[|h| - 1];
      if b.last then Closed(init) + [Open(init) + [b]] else Closed(init)
  }

  /** The finished frames of a history as byte strings. */
  function Frames(h: seq<Beat>): seq<seq<byte>> {
    if h == [] then []
    else
      var init, b := h[..|h| - 1], h[|h| - 1];
      if b.last then Frames(init) + [Payload(Open(init)) + Bytes(b)] else Frames(init)
  }

  /** The bytes of the frame still under way. */
  function Pending(h: seq<Beat>): seq<byte> {
    Payload(Open(h))
  }

  lemma Push(h: seq<Beat>, b: Beat)
    ensures Open(h + [b]) == if b.last then [] else Open(h) + [b]
    ensures Closed(h + [b]) == if b.last then Closed(h) + [Open(h) + [b]] else Closed(h)
    ensures Frames(h + [b]) == if b.last then Frames(h) + [Pending(h) + Bytes(b)] else Frames(h)
    ensures Pending(h + [b]) == if b.last then [] else Pending(h) + Bytes(b)
  {
    assert (h + [b])[..|h|] == h;
    PushPayload(Open(h), b);
  }

  lemma PushPayload(beats: seq<Beat>, b: Beat)
    ensures Payload(beats + [b]) == Payload(beats) + Bytes(b)
  {
    assert (beats + [b])[..|beats|] == beats;
  }

  /** A padbytes sum cut to the width of a padbytes register, log2(B) bits. */
  function Truncated(x: nat, B: nat): (r: nat)
    requires x < 2 * B
    ensures r == if x < B then x else x - B
  {
    if x < B then x % B else (assert x == 1 * B + (x - B); x % B)
  }

  /** A 16-bit field, most significant byte first. */
  function Field16(s: seq<byte>, at: nat): nat
    requires at + 2 <= |s|
  {
    256 * (s[at] as int) + s[at + 1] as int
  }

  /** The last `n` bytes are zero. */
  predicate ZeroTail(data: seq<byte>, n: nat) {
    n <= |data| && forall i :: |data| - n <= i < |data| ==> data[i] == 0
  }

  /** The padding of a last beat is zero. */
  predicate ZeroPadded(b: Beat) {
    b.last ==> ZeroTail(b.data, b.pad)
  }

  /** `data_masker`: the pad bytes of a last beat are driven to zero. */
  function Masked(data: seq<byte>, pad: nat): (m: seq<byte>)
    requires pad <= |data|
    ensures |m| == |data| && m[..|data| - pad] == data[..|data| - pad] && ZeroTail(m, pad)
  {
    data[..|data| - pad] + seq(pad, _ => 0)
  }

  /** The byte lanes that `n` beats occupy. */
  function Lanes(n: nat, B: nat): nat {
    n * B
  }

  lemma NextLanes(n: nat, B: nat)
    ensures Lanes(0, B) == 0 && Lanes(n + 1, B) == Lanes(n, B) + B
  {
  }

  /** What one cycle adds to a history: `x` if the handshake fires. */
  function Maybe<T>(fires: bool, x: T): seq<T> {
    if fires then [x] else []
  }

  lemma Assoc<T>(a: seq<T>, b: seq<T>, c: seq<T>)
    ensures (a + b) + c == a + (b + c)
  {
  }

  /** Sending `hold` with the top of a beat and keeping the bottom of that beat
      loses nothing: sent ++ hold stays equal to everything received. */
  lemma Realign(sent: seq<byte>, hold: seq<byte>, got: seq<byte>, data: seq<byte>, k: nat)
    requires k <= |data|
    requires sent + hold == got
    ensures (sent + (hold + data[..k])) + data[k..] == got + data
  {
    assert data == data[..k] + data[k..];
    assert (sent + (hold + data[..k])) + data[k..] == (sent + hold) + data;
  }

  /** The same for a final beat that still fits. */
  lemma RealignFit(sent: seq<byte>, hold: seq<byte>, got: seq<byte>, data: seq<byte>, k: nat, kept: nat)
    requires kept <= k <= |data|
    requires sent + hold == got
    ensures sent + (hold + data[..k])[..|hold| + kept] == got + data[..kept]
  {
    assert (hold + data[..k])[..|hold| + kept] == hold + data[..kept];
    assert sent + (hold + data[..kept]) == (sent + hold) + data[..kept];
  }

  /** The same for a final beat whose tail is left for one more output beat. */
  lemma RealignSpill(sent: seq<byte>, hold: seq<byte>, got: seq<byte>, data: seq<byte>, k: nat, kept: nat)
    requires k <= kept <= |data|
    requires sent + hold == got
    ensures (sent + (hold + data[..k])) + data[k..][..kept - k] == got + data[..kept]
  {
    assert data[k..][..kept - k] == data[..kept][k..];
    assert data[..kept][..k] == data[..k];
    Realign(sent, hold, got, data[..kept], k);
  }
}
