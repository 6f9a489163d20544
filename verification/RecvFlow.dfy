/** Receive flow control of one connection: the per-packet compute step of the receive
    pipeline, the ring pointers it shares with the application, and the counters those
    pointer words stand for. */
module RecvFlow {
  import opened Streams
  import opened Modular

  const SEQ: nat := 0x1_0000_0000 // sequence numbers have 32 bits
  const MSS: nat := 1024 // the longest segment sent

  datatype Packet = Packet(seqNum: nat, val: bool, payload: seq<byte>)

  datatype Decision = Decision(accept: bool, ack: nat, tail: nat, wnd: nat)

  /** The acknowledgement engine: only the packet that is expected next moves the ack. */
  function AckEngine(ack: nat, pkt: Packet): (bool, nat) {
    if pkt.val && pkt.seqNum == ack then (true, Plus(pkt.seqNum, |pkt.payload|, SEQ)) else (false, ack)
  }

  /** The compute stage, on the ack number, the tail word and a snapshot of the head word
      of a ring of `R` bytes. */
  function Compute(ack: nat, tail: nat, head: nat, pkt: Packet, R: nat): Decision
    requires R > 0 && head < 2 * R
  {
    var used := Minus(tail, head, 2 * R);
    var left := Minus(R, used, 2 * R);
    var (good, next) := AckEngine(ack, pkt);
    var accept := good && left >= |pkt.payload|;
    Decision(accept, if accept then next else ack, if accept then Plus(tail, |pkt.payload|, 2 * R) else tail, left)
  }

  /** The sizes of the receive and the transmit ring; a pointer word counts twice as far. */
  datatype Sizes = Sizes(R: nat, T: nat)

  predicate SizesOk(z: Sizes) {
    z.R > 0 && z.T > 0
  }

  /** What the hardware stores for a connection. `heads` are the head words that packets
      in the read stage have fetched and the compute stage has not used yet. */
  datatype Ptrs = Ptrs(ack: nat, wnd: nat, rxHead: nat, rxCommit: nat, rxTail: nat, txHead: nat, txTail: nat,
                       txAck: nat, txSeq: nat, heads: seq<nat>, ring: seq<byte>)

  /** What the pointer words stand for: byte counters that never wrap, the stream `S`
      that the peer sends from sequence number `irs` on, the bytes accepted so far and
      the number of requests the application has consumed. The transmit counters start at
      the sequence number `iss`; `sent` is the next one to be sent. `clean` says that no
      acknowledgement has overreached so far. */
  datatype Counts = Counts(S: seq<byte>, irs: nat, iss: nat, head: nat, commit: nat, tail: nat,
                           txHead: nat, sent: nat, txTail: nat, heads: seq<nat>, delivered: seq<byte>, served: nat,
                           clean: bool)

  /** Where byte `i` of the stream sits in the ring. */
  function Slot(i: nat, R: nat): (k: nat)
    requires R > 0
    ensures k < R
  {
    Word(i, R)
  }

  predicate Ordered(c: Counts, z: Sizes) {
    && c.head <= c.commit <= c.tail <= c.head + z.R
    && (c.clean ==> c.txHead <= c.sent <= c.txTail <= c.txHead + z.T)
  }

  predicate WordsOk(p: Ptrs, c: Counts, z: Sizes)
    requires SizesOk(z)
  {
    && p.rxHead == Word(c.head, 2 * z.R) && p.rxCommit == Word(c.commit, 2 * z.R) && p.rxTail == Word(c.tail, 2 * z.R)
    && p.txHead < 2 * z.T && p.txTail == Word(c.txTail, 2 * z.T) && p.txAck < SEQ && p.txSeq < SEQ
    && (c.clean ==> p.txHead == Word(c.txHead, 2 * z.T) && p.txAck == Word(c.txHead, SEQ) && p.txSeq == Word(c.sent, SEQ))
  }

  /** Acceptance in order, exactly once: the accepted bytes are a prefix of the stream,
      as long as the tail counter, and the ack number names the next byte. */
  predicate DeliveryOk(p: Ptrs, c: Counts) {
    && |c.S| < SEQ && c.tail <= |c.S|
    && c.delivered == c.S[..c.tail]
    && p.ack == Word(c.irs + c.tail, SEQ)
  }

  /** The head snapshots in flight are old but in order, and the tail respects them all. */
  ghost predicate HeadsOk(p: Ptrs, c: Counts, z: Sizes)
    requires SizesOk(z)
  {
    && |p.heads| == |c.heads|
    && (forall i :: 0 <= i < |c.heads| ==> p.heads[i] == Word(c.heads[i], 2 * z.R))
    && (forall i :: 0 <= i < |c.heads| ==> c.heads[i] <= c.head && c.tail <= c.heads[i] + z.R)
    && (forall i, j :: 0 <= i <= j < |c.heads| ==> c.heads[i] <= c.heads[j])
  }

  /** Between head and commit the ring holds the stream. */
  ghost predicate RingOk(p: Ptrs, c: Counts, z: Sizes)
    requires SizesOk(z)
  {
    |p.ring| == z.R && c.commit <= |c.S| && forall i :: c.head <= i < c.commit ==> p.ring[Slot(i, z.R)] == c.S[i]
  }

  /** What every step of the receive engine, the payload copier, the transmit engine and
      the application keeps: on the receive side always, on the transmit side as long as no
      acknowledgement overreaches. */
  ghost predicate FlowOk(p: Ptrs, c: Counts, z: Sizes) {
    && SizesOk(z) && Ordered(c, z) && WordsOk(p, c, z) && DeliveryOk(p, c) && HeadsOk(p, c, z) && RingOk(p, c, z)
  }

  /** A packet of the peer: any slice of its stream, however old, early or repeated. */
  predicate SliceOf(pkt: Packet, c: Counts, off: nat) {
    && off + |pkt.payload| <= |c.S| && pkt.payload == c.S[off..off + |pkt.payload|]
    && pkt.seqNum == Word(c.irs + off, SEQ)
  }

  // ----- the read stage -----

  function ReadHead(p: Ptrs): Ptrs {
    p.(heads := p.heads + [p.rxHead])
  }

  lemma ReadHeadKeeps(p: Ptrs, c: Counts, z: Sizes)
    requires FlowOk(p, c, z)
    ensures FlowOk(ReadHead(p), c.(heads := c.heads + [c.head]), z)
  {
    hide Word, Slot;
  }

  // ----- the compute stage -----

  function Packeted(p: Ptrs, pkt: Packet, z: Sizes): Ptrs
    requires SizesOk(z) && |p.heads| > 0 && p.heads[0] < 2 * z.R
  {
    var d := Compute(p.ack, p.rxTail, p.heads[0], pkt, z.R);
    p.(ack := d.ack, wnd := d.wnd, rxTail := d.tail, heads := p.heads[1..])
  }

  /** The counters after a packet: one more slice delivered, or nothing. */
  function Counted(c: Counts, pkt: Packet, accept: bool): Counts
    requires |c.heads| > 0
  {
    if accept then c.(heads := c.heads[1..], tail := c.tail + |pkt.payload|, delivered := c.delivered + pkt.payload)
    else c.(heads := c.heads[1..])
  }

  /** A slice is accepted exactly when it starts at the next byte and fits in the space
      above the head snapshot; the window is that space. */
  lemma AcceptIff(p: Ptrs, c: Counts, z: Sizes, pkt: Packet, off: nat)
    requires FlowOk(p, c, z) && |p.heads| > 0 && (pkt.val ==> SliceOf(pkt, c, off))
    ensures p.heads[0] < 2 * z.R
    ensures var d := Compute(p.ack, p.rxTail, p.heads[0], pkt, z.R);
      && d.wnd == c.heads[0] + z.R - c.tail
      && (d.accept <==> pkt.val && off == c.tail && c.tail + |pkt.payload| <= c.heads[0] + z.R)
      && (d.accept ==> d.ack == Word(c.irs + c.tail + |pkt.payload|, SEQ))
      && (d.accept ==> d.tail == Word(c.tail + |pkt.payload|, 2 * z.R))
      && (!d.accept ==> d.ack == p.ack && d.tail == p.rxTail)
  {
    hide Word, Plus, Minus, RingOk;
    var h := c.heads[0];
    assert p.heads[0] == Word(h, 2 * z.R) && h <= c.head && c.tail <= h + z.R;
    hide HeadsOk;
    MinusWord(c.tail, h, 2 * z.R);
    var used := c.tail - h;
    Small(used, 2 * z.R);
    Small(z.R, 2 * z.R);
    MinusWord(z.R, used, 2 * z.R);
    if pkt.val {
      NextByte(c.irs, off, c.tail);
      PlusWord(c.irs + c.tail, |pkt.payload|, SEQ);
      PlusWord(c.tail, |pkt.payload|, 2 * z.R);
    }
  }

  /** Sequence numbers tell the bytes of a stream shorter than 2^32 apart. */
  lemma NextByte(irs: nat, a: nat, b: nat)
    requires a < SEQ && b < SEQ
    ensures Word(irs + a, SEQ) == Word(irs + b, SEQ) <==> a == b
  {
    hide Word;
    if Word(irs + a, SEQ) == Word(irs + b, SEQ) {
      if a <= b {
        SameWord(irs + b, irs + a, SEQ);
      } else {
        SameWord(irs + a, irs + b, SEQ);
      }
    }
  }

  lemma PacketKeeps(p: Ptrs, c: Counts, z: Sizes, pkt: Packet, off: nat)
    requires FlowOk(p, c, z) && |p.heads| > 0 && (pkt.val ==> SliceOf(pkt, c, off))
    ensures p.heads[0] < 2 * z.R
    ensures FlowOk(Packeted(p, pkt, z), Counted(c, pkt, Compute(p.ack, p.rxTail, p.heads[0], pkt, z.R).accept), z)
  {
    hide Word, Compute, Slot;
    AcceptIff(p, c, z, pkt, off);
    var d := Compute(p.ack, p.rxTail, p.heads[0], pkt, z.R);
    if d.accept {
      assert c.S[..c.tail] + c.S[c.tail..c.tail + |pkt.payload|] == c.S[..c.tail + |pkt.payload|];
    }
  }

  /** The advertised window is the space that the head snapshot showed before the packet.
      With the acknowledgement it admits bytes that the ring has no room for, even counting
      all the application has consumed since the snapshot, exactly when the packet starts at
      the next byte, fits above the snapshot, and is longer than what was consumed since. */
  lemma WindowOverstated(p: Ptrs, c: Counts, z: Sizes, pkt: Packet, off: nat)
    requires FlowOk(p, c, z) && |p.heads| > 0 && (pkt.val ==> SliceOf(pkt, c, off))
    ensures p.heads[0] < 2 * z.R
    ensures var d := Compute(p.ack, p.rxTail, p.heads[0], pkt, z.R);
      var edge := Counted(c, pkt, d.accept).tail + d.wnd;
      edge > c.head + z.R <==>
        (pkt.val && off == c.tail && c.tail + |pkt.payload| <= c.heads[0] + z.R && |pkt.payload| > c.head - c.heads[0])
  {
    hide Word, Compute, Slot;
    AcceptIff(p, c, z, pkt, off);
  }

  /** One such state: an empty ring of four bytes, and a packet of one byte. */
  lemma WindowOverstatedOnce()
    ensures var z, c := Sizes(4, 4), Counts([7], 0, 0, 0, 0, 0, 0, 0, 0, [0], [], 0, true);
      var p, pkt := Ptrs(0, 0, 0, 0, 0, 0, 0, 0, 0, [0], [0, 0, 0, 0]), Packet(0, true, [7]);
      && FlowOk(p, c, z) && SliceOf(pkt, c, 0)
      && var d := Compute(p.ack, p.rxTail, p.heads[0], pkt, z.R);
         Counted(c, pkt, d.accept).tail + d.wnd == 5 > c.head + z.R
  {
    var z, c := Sizes(4, 4), Counts([7], 0, 0, 0, 0, 0, 0, 0, 0, [0], [], 0, true);
    var p, pkt := Ptrs(0, 0, 0, 0, 0, 0, 0, 0, 0, [0], [0, 0, 0, 0]), Packet(0, true, [7]);
    Small(0, 8);
    Small(0, SEQ);
    assert FlowOk(p, c, z);
    AcceptIff(p, c, z, pkt, 0);
  }

  /** Ack number and tail word advance in lockstep: both stand for the tail counter. */
  lemma Lockstep(p: Ptrs, c: Counts, z: Sizes)
    requires FlowOk(p, c, z)
    ensures Minus(p.ack, Word(c.irs, SEQ), SEQ) == c.tail
    ensures Word(Minus(p.ack, Word(c.irs, SEQ), SEQ), 2 * z.R) == p.rxTail
  {
    MinusWord(c.irs + c.tail, c.irs, SEQ);
  }

  // ----- the payload copier -----

  /** The copier writes an accepted byte, in any order, between commit and tail. */
  function CopyByte(p: Ptrs, i: nat, b: byte, z: Sizes): Ptrs
    requires SizesOk(z) && |p.ring| == z.R
  {
    p.(ring := p.ring[Slot(i, z.R) := b])
  }

  lemma CopyByteKeeps(p: Ptrs, c: Counts, z: Sizes, i: nat)
    requires FlowOk(p, c, z) && c.commit <= i < c.tail
    ensures |p.ring| == z.R && FlowOk(CopyByte(p, i, c.delivered[i], z), c, z)
  {
    hide Word;
    var p1 := CopyByte(p, i, c.delivered[i], z);
    forall j | c.head <= j < c.commit
      ensures p1.ring[Slot(j, z.R)] == c.S[j]
    {
      if Slot(j, z.R) == Slot(i, z.R) {
        SameWord(i, j, z.R);
        assert false;
      }
    }
    hide Slot;
  }

  /** The first `n` bytes of `payload` sit in the ring behind the commit pointer. */
  ghost predicate Copied(p: Ptrs, c: Counts, payload: seq<byte>, n: nat, z: Sizes) {
    && SizesOk(z) && |p.ring| == z.R && n <= |payload|
    && forall j :: 0 <= j < n ==> p.ring[Slot(c.commit + j, z.R)] == payload[j]
  }

  /** Some bytes into consecutive ring slots. */
  function Put(ring: seq<byte>, at: nat, bytes: seq<byte>, R: nat): (r: seq<byte>)
    requires |ring| == R > 0
    ensures |r| == R
    decreases |bytes|
  {
    if bytes == [] then ring else Put(ring[Slot(at, R) := bytes[0]], at + 1, bytes[1..], R)
  }

  /** A ring slot as the copier addresses it: from the commit word. */
  lemma {:induction false} PutWord(ring: seq<byte>, c: nat, k: nat, bytes: seq<byte>, R: nat)
    requires |ring| == R > 0
    ensures Put(ring, Word(c, 2 * R) + k, bytes, R) == Put(ring, c + k, bytes, R)
    decreases |bytes|
  {
    hide Word;
    if bytes != [] {
      SlotOfWord(c, k, R);
      PutWord(ring[Slot(c + k, R) := bytes[0]], c, k + 1, bytes[1..], R);
    }
  }

  lemma SlotOfWord(h: nat, i: nat, R: nat)
    requires R > 0
    ensures Slot(Word(h, 2 * R) + i, R) == Slot(h + i, R)
  {
    hide Quot, Rem;
    var q, r := Quot(h, 2 * R), Rem(h, 2 * R);
    var q1, r1 := Quot(r + i, R), Rem(r + i, R);
    assert R * (2 * q + q1) == 2 * R * q + R * q1;
    Divided(h + i, R, 2 * q + q1, r1);
  }

  /** Copying the next bytes of an accepted payload keeps what is committed and what was
      copied before. */
  lemma {:induction false} CopyBytesKeep(p: Ptrs, c: Counts, z: Sizes, payload: seq<byte>, k: nat, bytes: seq<byte>)
    requires FlowOk(p, c, z) && Copied(p, c, payload, k, z)
    requires c.commit + |payload| <= c.tail && payload == c.delivered[c.commit..c.commit + |payload|]
    requires k + |bytes| <= |payload| && bytes == payload[k..k + |bytes|]
    ensures FlowOk(p.(ring := Put(p.ring, c.commit + k, bytes, z.R)), c, z)
    ensures Copied(p.(ring := Put(p.ring, c.commit + k, bytes, z.R)), c, payload, k + |bytes|, z)
    decreases |bytes|
  {
    hide Word, Slot;
    if bytes != [] {
      var i := c.commit + k;
      assert bytes[0] == payload[k] == c.delivered[i];
      CopyByteKeeps(p, c, z, i);
      var p1 := CopyByte(p, i, bytes[0], z);
      forall j | 0 <= j < k + 1
        ensures p1.ring[Slot(c.commit + j, z.R)] == payload[j]
      {
        if j < k {
          DistinctSlots(c.commit + j, i, z.R);
        }
      }
      hide FlowOk;
      assert bytes[1..] == payload[k + 1..k + 1 + |bytes[1..]|];
      CopyBytesKeep(p1, c, z, payload, k + 1, bytes[1..]);
      assert p1.(ring := Put(p1.ring, i + 1, bytes[1..], z.R)) == p.(ring := Put(p.ring, i, bytes, z.R));
    }
  }

  lemma DistinctSlots(i: nat, j: nat, R: nat)
    requires i < j < i + R
    ensures Slot(i, R) != Slot(j, R)
  {
    hide Word;
    if Slot(i, R) == Slot(j, R) {
      SameWord(j, i, R);
    }
  }

  /** Committing a payload that has been copied whole. */
  lemma CommitKeeps(p: Ptrs, c: Counts, z: Sizes, payload: seq<byte>)
    requires FlowOk(p, c, z) && Copied(p, c, payload, |payload|, z)
    requires c.commit + |payload| <= c.tail && payload == c.delivered[c.commit..c.commit + |payload|]
    ensures FlowOk(p.(rxCommit := Plus(p.rxCommit, |payload|, 2 * z.R)), c.(commit := c.commit + |payload|), z)
  {
    hide Word, Slot, Plus;
    PlusWord(c.commit, |payload|, 2 * z.R);
    var n := |payload|;
    forall i | c.commit <= i < c.commit + n
      ensures p.ring[Slot(i, z.R)] == c.S[i]
    {
      assert p.ring[Slot(c.commit + (i - c.commit), z.R)] == payload[i - c.commit];
    }
  }

  // ----- the transmit side -----

  /** The pointer range of the transmit ring divides the sequence space. */
  predicate Wraps(T: nat, turns: nat) {
    T > 0 && 2 * T * turns == SEQ
  }

  /** The transmit acknowledgement engine, on 32-bit numbers. */
  function NextAck(ack: nat, pktAck: nat, seqNum: nat): nat {
    if seqNum < ack then
      if pktAck > ack || pktAck < seqNum + 1 then pktAck else ack
    else
      if seqNum != ack && pktAck > ack && pktAck <= (seqNum + 1) % SEQ then pktAck else ack
  }

  /** Sequence counters less than half the space apart, as 32-bit numbers. */
  lemma Numbers(a: nat, b: nat)
    requires a <= b < a + SEQ
    ensures if Quot(b, SEQ) == Quot(a, SEQ) then Word(b, SEQ) == Word(a, SEQ) + (b - a)
            else Word(b, SEQ) + SEQ == Word(a, SEQ) + (b - a)
  {
    QuotStep(b, a, SEQ);
    hide Quot, Rem;
    assert SEQ * (Quot(a, SEQ) + 1) == SEQ * Quot(a, SEQ) + SEQ;
  }

  /** An acknowledgement of the number right behind the send number, which the engine takes. */
  predicate Overreach(ack: nat, pktAck: nat, seqNum: nat) {
    ack < seqNum < SEQ - 1 && pktAck == seqNum + 1
  }

  /** The counter that a 32-bit acknowledgement number stands for: the first one from `a` on. */
  function Acknowledged(a: nat, pktAck: nat): nat {
    a + Minus(pktAck, Word(a, SEQ), SEQ)
  }

  lemma AcknowledgedIs(a: nat, pktAck: nat)
    requires pktAck < SEQ
    ensures Word(Acknowledged(a, pktAck), SEQ) == pktAck
  {
    hide Quot, Rem;
    var q, w, d := Quot(a, SEQ), Word(a, SEQ), Minus(pktAck, Word(a, SEQ), SEQ);
    assert SEQ * (q + 1) == SEQ * q + SEQ && SEQ * 0 == 0 && SEQ * 1 == SEQ;
    if w <= pktAck {
      Divided(pktAck + SEQ - w, SEQ, 1, pktAck - w);
      Divided(a + d, SEQ, q, pktAck);
    } else {
      Divided(pktAck + SEQ - w, SEQ, 0, pktAck + SEQ - w);
      Divided(a + d, SEQ, q + 1, pktAck);
    }
  }

  /** Of all 32-bit numbers exactly those are taken that acknowledge something new within what
      was sent, unless the send number is the last of the space, and those that overreach. */
  lemma AckTakenIff(a: nat, s: nat, pktAck: nat)
    requires a <= s <= a + SEQ / 2 && pktAck < SEQ
    ensures var b := Acknowledged(a, pktAck);
      && Word(b, SEQ) == pktAck
      && NextAck(Word(a, SEQ), pktAck, Word(s, SEQ))
         == (if (a < b <= s && Word(s, SEQ) != SEQ - 1) || Overreach(Word(a, SEQ), pktAck, Word(s, SEQ))
             then pktAck else Word(a, SEQ))
      && (Overreach(Word(a, SEQ), pktAck, Word(s, SEQ)) <==> b == s + 1 && Word(a, SEQ) < Word(s, SEQ) < SEQ - 1)
  {
    hide Word, Minus;
    AcknowledgedIs(a, pktAck);
    var b := Acknowledged(a, pktAck);
    Numbers(a, s);
    Numbers(a, b);
    if b <= s {
      Numbers(b, s);
    } else {
      Numbers(s, b);
    }
  }

  /** Once an acknowledgement has overreached, the engine takes any number at all. */
  lemma AnyAckTaken(s: nat, pktAck: nat)
    requires Word(s, SEQ) < SEQ - 1 && pktAck < SEQ
    ensures NextAck(Word(s + 1, SEQ), pktAck, Word(s, SEQ)) == pktAck
  {
    hide Word;
    Numbers(s, s + 1);
  }

  lemma WordOfNumber(x: nat, T: nat, turns: nat)
    requires Wraps(T, turns)
    ensures Word(Word(x, SEQ), 2 * T) == Word(x, 2 * T)
  {
    hide Quot, Rem;
    var q, r := Quot(x, SEQ), Rem(x, SEQ);
    var q1, r1 := Quot(r, 2 * T), Rem(r, 2 * T);
    assert SEQ * q == 2 * T * (turns * q);
    assert 2 * T * (turns * q + q1) == 2 * T * (turns * q) + 2 * T * q1;
    Divided(x, 2 * T, turns * q + q1, r1);
  }

  function Acked(p: Ptrs, pktAck: nat, T: nat): Ptrs
    requires T > 0
  {
    var n := NextAck(p.txAck, pktAck, p.txSeq);
    p.(txAck := n, txHead := Word(n, 2 * T))
  }

  lemma HalfSpace(T: nat, turns: nat)
    requires Wraps(T, turns)
    ensures T <= SEQ / 2
  {
    if turns > 1 {
      Product(2 * T, turns - 1);
      assert 2 * T * turns == 2 * T + 2 * T * (turns - 1);
    }
  }

  /** The counters after an acknowledgement. */
  function AckCounts(p: Ptrs, c: Counts, pktAck: nat): Counts {
    var b := Acknowledged(c.txHead, pktAck);
    if !c.clean then c
    else if Overreach(p.txAck, pktAck, p.txSeq) then c.(clean := false)
    else if c.txHead < b <= c.sent && p.txSeq != SEQ - 1 then c.(txHead := b)
    else c
  }

  /** Acknowledged bytes leave the transmit ring, whatever number a packet carries. */
  lemma AckKeeps(p: Ptrs, c: Counts, z: Sizes, turns: nat, pktAck: nat)
    requires FlowOk(p, c, z) && Wraps(z.T, turns) && pktAck < SEQ
    ensures FlowOk(Acked(p, pktAck, z.T), AckCounts(p, c, pktAck), z)
  {
    hide Word, Slot, NextAck, Wraps, Acknowledged, Overreach;
    AckedWords(p, pktAck, z.T);
    if c.clean {
      HalfSpace(z.T, turns);
      AckTakenIff(c.txHead, c.sent, pktAck);
      WordOfNumber(Acknowledged(c.txHead, pktAck), z.T, turns);
      WordOfNumber(c.txHead, z.T, turns);
    }
  }

  lemma AckedWords(p: Ptrs, pktAck: nat, T: nat)
    requires T > 0 && p.txAck < SEQ && pktAck < SEQ
    ensures Acked(p, pktAck, T).txHead < 2 * T && Acked(p, pktAck, T).txAck < SEQ
  {
  }

  /** The exact condition: some counter for the transmit head makes the flow sound again if and
      only if the acknowledgement does not overreach. */
  lemma AckKeepsIff(p: Ptrs, c: Counts, z: Sizes, turns: nat, pktAck: nat)
    requires FlowOk(p, c, z) && c.clean && Wraps(z.T, turns) && pktAck < SEQ
    ensures (exists h: nat :: FlowOk(Acked(p, pktAck, z.T), c.(txHead := h), z)) <==> !Overreach(p.txAck, pktAck, p.txSeq)
  {
    hide Word, Slot, NextAck, Wraps;
    if Overreach(p.txAck, pktAck, p.txSeq) {
      HalfSpace(z.T, turns);
      AckTakenIff(c.txHead, c.sent, pktAck);
      var s := c.sent;
      forall h: nat | FlowOk(Acked(p, pktAck, z.T), c.(txHead := h), z)
        ensures false
      {
        assert Word(h, SEQ) == Word(s + 1, SEQ) && h <= s <= h + z.T;
        SameWord(s + 1, h, SEQ);
      }
    } else {
      AckKeeps(p, c, z, turns, pktAck);
      var c1 := AckCounts(p, c, pktAck);
      assert c1 == c.(txHead := c1.txHead);
    }
  }

  /** What comes of it: from every sound state in which an acknowledgement can overreach a byte
      that is queued, the overreach, a reply into the space that the pointers then show, and a
      late acknowledgement `b` leave more bytes between head and tail than the ring holds. */
  lemma OverreachBreaks(p: Ptrs, c: Counts, z: Sizes, turns: nat, b: nat)
    requires FlowOk(p, c, z) && c.clean && Wraps(z.T, turns)
    requires p.txAck < p.txSeq < SEQ - 1 && c.sent < c.txTail
    requires b <= c.sent && c.sent + 1 < b + z.T
    ensures var p1 := Acked(p, p.txSeq + 1, z.T);
      var n := c.sent + 1 + z.T - c.txTail;
      && Minus(z.T, Minus(p1.txTail, p1.txHead, 2 * z.T), 2 * z.T) == n
      && var p2 := p1.(txTail := Plus(p1.txTail, n, 2 * z.T));
      && var p3 := Acked(p2, Word(b, SEQ), z.T);
      && Minus(p3.txTail, p3.txHead, 2 * z.T) == c.sent + 1 + z.T - b > z.T
  {
    hide Word, Slot, NextAck, Wraps, Minus, Plus;
    var s, T, x := c.sent, z.T, p.txSeq + 1;
    HalfSpace(T, turns);
    Numbers(s, s + 1);
    AckTakenIff(c.txHead, s, x);
    WordOfNumber(s + 1, T, turns);
    MinusWord(c.txTail, s + 1, 2 * T);
    var used := c.txTail - (s + 1);
    Small(used, 2 * T);
    Small(T, 2 * T);
    MinusWord(T, used, 2 * T);
    PlusWord(c.txTail, T - used, 2 * T);
    AnyAckTaken(s, Word(b, SEQ));
    WordOfNumber(b, T, turns);
    MinusWord(s + 1 + T, b, 2 * T);
  }

  /** With nothing queued behind the send number, the overreach alone does it. */
  lemma OverreachPastTail(p: Ptrs, c: Counts, z: Sizes, turns: nat)
    requires FlowOk(p, c, z) && c.clean && Wraps(z.T, turns) && z.T > 1
    requires p.txAck < p.txSeq < SEQ - 1 && c.sent == c.txTail
    ensures var p1 := Acked(p, p.txSeq + 1, z.T);
      Minus(p1.txTail, p1.txHead, 2 * z.T) == 2 * z.T - 1 > z.T
  {
    hide Word, Slot, NextAck, Wraps, Minus;
    var s, T := c.sent, z.T;
    HalfSpace(T, turns);
    Numbers(s, s + 1);
    AckTakenIff(c.txHead, s, p.txSeq + 1);
    WordOfNumber(s + 1, T, turns);
    LapWord(s, 2 * T);
    MinusWord(s + 2 * T, s + 1, 2 * T);
  }

  /** One such run, on a transmit ring of four bytes: bytes 0 to 3 are queued, the sender went
      back and stands at 3. The peer acknowledges 4, a reply of four bytes is queued, and an old
      acknowledgement of 1 arrives: seven bytes in a ring of four. */
  lemma OverreachOnce()
    ensures var z, c := Sizes(4, 4), Counts([], 0, 0, 0, 0, 0, 0, 3, 4, [], [], 0, true);
      var p := Ptrs(0, 0, 0, 0, 0, 0, 4, 0, 3, [], [0, 0, 0, 0]);
      && FlowOk(p, c, z)
      && var p1 := Acked(p, 4, 4);
      && var p2 := p1.(txTail := Plus(p1.txTail, 4, 8));
      && var p3 := Acked(p2, 1, 4);
      && Minus(p3.txTail, p3.txHead, 8) == 7 > z.T
  {
    var z, c := Sizes(4, 4), Counts([], 0, 0, 0, 0, 0, 0, 3, 4, [], [], 0, true);
    var p := Ptrs(0, 0, 0, 0, 0, 0, 4, 0, 3, [], [0, 0, 0, 0]);
    Small(0, 8);
    Small(4, 8);
    Small(0, SEQ);
    Small(1, SEQ);
    Small(3, SEQ);
    assert FlowOk(p, c, z);
    hide Word, FlowOk;
    OverreachBreaks(p, c, z, SEQ / 8, 1);
  }

  /** The segment calculator: what lies between two pointer words, at most a full segment, and in
      whole words of 32 bytes if there is one. */
  function SegmentSize(trail: nat, lead: nat, T: nat): nat
    requires T > 0 && trail < 2 * T
  {
    var used := Minus(lead, trail, 2 * T);
    if used > MSS then MSS else if used < 32 then used else used - used % 32
  }

  /** It never reaches beyond the tail, and it is the longest one allowed: a full segment, or
      fewer than 32 bytes stay queued behind it, none of them if it is not in whole words. */
  lemma SegmentFits(from: nat, tail: nat, T: nat)
    requires T > 0 && from <= tail < from + 2 * T
    ensures var n := SegmentSize(Word(from, 2 * T), Word(tail, 2 * T), T);
      && from + n <= tail && n <= MSS
      && (from < tail ==> n > 0)
      && (n == MSS || tail - (from + n) < 32)
      && (n % 32 == 0 || from + n == tail)
  {
    hide Word, Minus;
    MinusWord(tail, from, 2 * T);
  }

  /** The send pipeline sends a segment of new bytes, or one again from the oldest byte that is
      not acknowledged. */
  function Sent(p: Ptrs, again: bool, T: nat): Ptrs
    requires T > 0
  {
    var from := if again then p.txAck else p.txSeq;
    p.(txSeq := Plus(from, SegmentSize(Word(from, 2 * T), p.txTail, T), SEQ))
  }

  lemma SendKeeps(p: Ptrs, c: Counts, z: Sizes, turns: nat, again: bool)
    requires FlowOk(p, c, z) && Wraps(z.T, turns)
    ensures var from := if again then c.txHead else c.sent;
      var n := SegmentSize(Word(if again then p.txAck else p.txSeq, 2 * z.T), p.txTail, z.T);
      && FlowOk(Sent(p, again, z.T), c.(sent := from + n), z)
      && (c.clean ==> from + n <= c.txTail && n <= MSS && (from < c.txTail ==> n > 0) && (n == MSS || c.txTail - (from + n) < 32))
  {
    hide Word, Slot, Plus, SegmentSize, Wraps;
    var from := if again then c.txHead else c.sent;
    if c.clean {
      WordOfNumber(from, z.T, turns);
      SegmentFits(from, c.txTail, z.T);
      PlusWord(from, SegmentSize(Word(from, 2 * z.T), p.txTail, z.T), SEQ);
    }
  }

  // ----- the application's pointer writes -----

  lemma ConsumeKeeps(p: Ptrs, c: Counts, z: Sizes, n: nat, served: nat)
    requires FlowOk(p, c, z) && c.head + n <= c.commit
    ensures FlowOk(p.(rxHead := Plus(p.rxHead, n, 2 * z.R)), c.(head := c.head + n, served := served), z)
  {
    hide Word, Slot, Plus;
    PlusWord(c.head, n, 2 * z.R);
  }

  lemma ProduceKeeps(p: Ptrs, c: Counts, z: Sizes, n: nat)
    requires FlowOk(p, c, z) && (c.clean ==> c.txTail + n <= c.txHead + z.T)
    ensures FlowOk(p.(txTail := Plus(p.txTail, n, 2 * z.T)), c.(txTail := c.txTail + n), z)
  {
    hide Word, Slot, Plus;
    PlusWord(c.txTail, n, 2 * z.T);
  }

  /** Ring safety on the pointer words themselves: commit lies between head and tail, and
      neither ring ever holds more than its size, the transmit ring unless an acknowledgement
      overreached. */
  lemma RingSafe(p: Ptrs, c: Counts, z: Sizes)
    requires FlowOk(p, c, z)
    ensures p.rxHead < 2 * z.R && p.txHead < 2 * z.T
    ensures Minus(p.rxCommit, p.rxHead, 2 * z.R) <= Minus(p.rxTail, p.rxHead, 2 * z.R) <= z.R
    ensures c.clean ==> Minus(p.txTail, p.txHead, 2 * z.T) <= z.T
  {
    hide Word, Slot, Minus;
    MinusWord(c.commit, c.head, 2 * z.R);
    MinusWord(c.tail, c.head, 2 * z.R);
    if c.clean {
      MinusWord(c.txTail, c.txHead, 2 * z.T);
    }
  }
}
