/** The simulator's packetizer and reassembler: a packet buffer is cut into bus words of
    `B` bytes and rebuilt from them. In a bus word as the simulator sees it, index
    `B - 1` is the first byte on the wire. */
module SimFraming {
  import opened Streams
  import opened Parsing
  import opened DramSpec

  /** A simulator word as a beat, first byte first. */
  function WireOrder(word: seq<byte>): (d: seq<byte>)
    ensures |d| == |word|
  {
    seq(|word|, i requires 0 <= i < |word| => word[|word| - 1 - i])
  }

  lemma Ordered(word: seq<byte>, front: seq<byte>, pad: nat)
    requires |word| == |front| + pad
    requires forall k :: 0 <= k < pad ==> word[k] == 0
    requires forall k :: pad <= k < |word| ==> word[k] == front[|word| - 1 - k]
    ensures WireOrder(word) == front + seq(pad, _ => 0)
  {
    var d := WireOrder(word);
    forall i | 0 <= i < |word|
      ensures d[i] == (front + seq(pad, _ => 0))[i]
    {
      assert d[i] == word[|word| - 1 - i];
    }
  }

  class Packetizer {
    var buffer: seq<byte>
    var pos: nat

    ghost predicate Valid()
      reads this
    {
      pos <= |buffer|
    }

    constructor ()
      ensures Valid() && buffer == [] && pos == 0
    {
      buffer, pos := [], 0;
    }

    /** The packet that the next call works on: the one in the buffer, or a fetched one. */
    function Current(next: seq<byte>): seq<byte>
      reads this
    {
      if pos < |buffer| then buffer else next
    }

    function Start(): nat
      reads this
    {
      if pos < |buffer| then pos else 0
    }

    /** `get_data`: the next `B` bytes, or what is left of them with zeros behind. When the
        buffer is used up, `next` is the packet fetched from the backend; without one the bus
        is driven with zeros and not valid. */
    method GetData(B: nat, next: seq<byte>) returns (val: bool, word: array<byte>, last: bool, padbytes: nat)
      requires Valid() && B > 0
      modifies this
      ensures Valid() && fresh(word) && word.Length == B
      ensures val == (old(Current(next)) != [])
      ensures !val ==> buffer == old(buffer) && pos == old(pos) && !last && padbytes == 0 && WireOrder(word[..]) == seq(B, _ => 0)
      ensures val ==> buffer == old(Current(next)) && old(Start()) < pos <= |buffer|
      ensures val ==> pos == if |buffer| - old(Start()) <= B then |buffer| else old(Start()) + B
      ensures val ==> last == (pos == |buffer|) && padbytes == B - (pos - old(Start())) && padbytes < B && (!last ==> padbytes == 0)
      ensures val ==> WireOrder(word[..]) == buffer[old(Start())..pos] + seq(padbytes, _ => 0)
    {
      if pos >= |buffer| {
        if next == [] {
          val, last, padbytes := false, false, 0;
          word := new byte[B](_ => 0);
          Ordered(word[..], [], B);
          return;
        }
        buffer, pos := next, 0;
      }
      val := true;
      word, last, padbytes := Fill(B);
    }

    /** The copying part, with a packet in the buffer. */
    method Fill(B: nat) returns (word: array<byte>, last: bool, padbytes: nat)
      requires Valid() && B > 0 && pos < |buffer|
      modifies this
      ensures Valid() && buffer == old(buffer) && fresh(word) && word.Length == B
      ensures pos == if |buffer| - old(pos) <= B then |buffer| else old(pos) + B
      ensures last == (pos == |buffer|) && padbytes == B - (pos - old(pos))
      ensures padbytes < B && (!last ==> padbytes == 0)
      ensures WireOrder(word[..]) == buffer[old(pos)..pos] + seq(padbytes, _ => 0)
    {
      word := new byte[B];
      var i := B - 1;
      while pos < |buffer| && i >= 0
        invariant -1 <= i < B && buffer == old(buffer)
        invariant pos == old(pos) + (B - 1 - i) <= |buffer|
        invariant forall k :: i < k < B ==> word[k] == buffer[old(pos) + (B - 1 - k)]
      {
        word[i] := buffer[pos];
        i, pos := i - 1, pos + 1;
      }
      padbytes := i + 1;
      last := pos == |buffer|;
      ghost var end := pos;
      while i >= 0
        invariant -1 <= i < padbytes && pos == end && buffer == old(buffer)
        invariant forall k :: i < k < padbytes ==> word[k] == 0
        invariant forall k :: padbytes <= k < B ==> word[k] == buffer[old(pos) + (B - 1 - k)]
      {
        word[i] := 0;
        i := i - 1;
      }
      Ordered(word[..], buffer[old(pos)..pos], padbytes);
    }
  }

  class Reassembler {
    var buffer: seq<byte>
    var sent: seq<seq<byte>>

    constructor ()
      ensures buffer == [] && sent == []
    {
      buffer, sent := [], [];
    }

    /** `put_data`: the bytes of a word, without the padding of the last one, are appended;
        the last word sends the packet and clears the buffer. */
    method PutData(word: array<byte>, last: bool, padbytes: nat)
      requires padbytes <= word.Length
      modifies this
      ensures var all := old(buffer) + Bytes(Beat(WireOrder(word[..]), last, padbytes));
        buffer == (if last then [] else all) && sent == old(sent) + Maybe(last, all)
    {
      var skip := if last then padbytes else 0;
      var i := word.Length - 1;
      ghost var d := WireOrder(word[..]);
      while i >= skip
        invariant skip - 1 <= i < word.Length && sent == old(sent)
        invariant buffer == old(buffer) + d[..word.Length - 1 - i]
      {
        assert d[..word.Length - i] == d[..word.Length - 1 - i] + [word[i]];
        buffer, i := buffer + [word[i]], i - 1;
      }
      assert Bytes(Beat(d, last, padbytes)) == d[..word.Length - skip];
      if last {
        sent, buffer := sent + [buffer], [];
      }
    }
  }

  /** Framing round trip: repeated `get_data` yields exactly ceil(len / B) words, `last`
      only on the final one, and `put_data` rebuilds and sends the packet. */
  method Transfer(packet: seq<byte>, B: nat) returns (sent: seq<seq<byte>>, beats: seq<Beat>)
    requires B > 0 && packet != []
    ensures sent == [packet]
    ensures |beats| == Flits(|packet|, B) && AllClean(beats, B)
    ensures forall i :: 0 <= i < |beats| ==> (beats[i].last <==> i == |beats| - 1)
    ensures Payload(beats) == packet
  {
    var rx := new Packetizer();
    var tx := new Reassembler();
    beats := [];
    NextLanes(0, B);
    hide Flits, Lanes, WireOrder, Payload, AllClean, Bytes;
    var left := packet;
    while left != [] || rx.pos < |rx.buffer|
      invariant rx.Valid() && (if left == [] then rx.buffer == packet else left == packet && rx.pos == 0 && rx.buffer == [])
      invariant Moved(beats, rx.pos, packet, B)
      invariant if rx.pos == |packet| then tx.buffer == [] && tx.sent == [packet]
                else tx.buffer == packet[..rx.pos] && tx.sent == []
      decreases |left| + (if left == [] then |rx.buffer| - rx.pos else |packet|)
    {
      ghost var at := rx.pos;
      hide Moved;
      var val, word, last, pad := rx.GetData(B, left);
      left := [];
      var b := Beat(WireOrder(word[..]), last, pad);
      Carries(b.data, packet[at..rx.pos], last, pad);
      MoveOne(beats, b, at, rx.pos, packet, B);
      Extend(packet, at, rx.pos);
      tx.PutData(word, last, pad);
      beats := beats + [b];
    }
    sent := tx.sent;
    assert packet[..|packet|] == packet;
  }

  lemma Carries(d: seq<byte>, front: seq<byte>, last: bool, pad: nat)
    requires d == front + seq(pad, _ => 0) && (!last ==> pad == 0)
    ensures Bytes(Beat(d, last, pad)) == front
  {
    assert d[..|d| - pad] == front;
  }

  lemma Extend(packet: seq<byte>, at: nat, pos: nat)
    requires at <= pos <= |packet|
    ensures packet[..at] + packet[at..pos] == packet[..pos] && (pos == |packet| ==> packet[..pos] == packet)
  {
  }

  /** The beats cut from the first `pos` bytes of a packet. */
  ghost predicate Moved(beats: seq<Beat>, pos: nat, packet: seq<byte>, B: nat) {
    && B > 0 && pos <= |packet| && AllClean(beats, B) && Payload(beats) == packet[..pos]
    && (if pos == |packet| then |beats| == Flits(|packet|, B) else pos == Lanes(|beats|, B))
    && (forall i :: 0 <= i < |beats| ==> (beats[i].last <==> i == |beats| - 1 && pos == |packet|))
  }

  lemma MoveOne(beats: seq<Beat>, b: Beat, at: nat, pos: nat, packet: seq<byte>, B: nat)
    requires Moved(beats, at, packet, B) && at < |packet| && Clean(b, B)
    requires pos == (if |packet| - at <= B then |packet| else at + B) && b.last == (pos == |packet|)
    requires Bytes(b) == packet[at..pos]
    ensures Moved(beats + [b], pos, packet, B)
  {
    hide Flits, Lanes, Payload, Bytes;
    NextLanes(|beats|, B);
    LastWord(|packet|, |beats|, B);
    PushPayload(beats, b);
    assert packet[..at] + packet[at..pos] == packet[..pos];
  }

  lemma LastWord(len: nat, n: nat, B: nat)
    requires B > 0 && Lanes(n, B) < len
    ensures len <= Lanes(n + 1, B) <==> n + 1 == Flits(len, B)
  {
    FlitsBracket(len, B);
    var f := Flits(len, B);
    NextLanes(n, B);
    if n + 1 < f {
      LanesMonotone(n + 1, f - 1, B);
    } else if n + 1 > f {
      LanesMonotone(f, n, B);
    }
  }
}
