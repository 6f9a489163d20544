/** The request-serving machine of the RPC echo application: its registers, its
    next-state logic, and what its pointer snapshots are worth in each state. */
module RpcApp {
  import opened Streams
  import opened Modular
  import opened RecvFlow

  const HEADER: nat := 32 // bytes of a request header, and of a write beat
  const LENS: nat := 0x1_0000 // lengths have 16 bits

  datatype St =
    | Ready | RxPtrsReq | RxPtrsResp | RdReqHdr | WaitReqHdr | TxPtrsReq | TxPtrsResp | CheckWrData
    | TxWrMemReq | PayloadCopy | WaitWrResp | AdjustRxHead | AdjustTxTail | RequeueFlow

  datatype App = App(st: St, cur: nat, rxHead: nat, rxCommit: nat, txHead: nat, txTail: nat,
                     rdLen: nat, wrLen: nat, left: nat)

  /** The counters that the snapshot registers stand for, and the write beats sent. */
  datatype Snap = Snap(commit: nat, txHead: nat, beats: nat)

  // ----- the request stream -----

  /** Requests in the peer's stream: a 32-byte header that starts with the number of
      bytes to read and the number of bytes to write back, then the bytes to read. */
  function RdLen(S: seq<byte>, o: nat): nat {
    if o + HEADER <= |S| then Field16(S, o) else 0
  }

  function WrLen(S: seq<byte>, o: nat): nat {
    if o + HEADER <= |S| then Field16(S, o + 2) else 0
  }

  /** Where request `k` starts. */
  function Start(S: seq<byte>, k: nat): nat {
    if k == 0 then 0 else Start(S, k - 1) + HEADER + RdLen(S, Start(S, k - 1))
  }

  /** The number of bytes the first `k` requests ask for. */
  function Replied(S: seq<byte>, k: nat): nat {
    if k == 0 then 0 else Replied(S, k - 1) + WrLen(S, Start(S, k - 1))
  }

  // ----- the datapath -----

  function RxUsed(a: App, z: Sizes): nat
    requires SizesOk(z) && a.rxHead < 2 * z.R
  {
    Minus(a.rxCommit, a.rxHead, 2 * z.R)
  }

  function TxLeft(a: App, z: Sizes): nat
    requires SizesOk(z) && a.txHead < 2 * z.T
  {
    Minus(z.T, Minus(a.txTail, a.txHead, 2 * z.T), 2 * z.T)
  }

  predicate LastWrite(a: App) {
    a.left <= HEADER
  }

  /** The 32 bytes at the head of the receive ring. */
  function HeaderBytes(p: Ptrs, head: nat, z: Sizes): (h: seq<byte>)
    requires SizesOk(z) && |p.ring| == z.R
    ensures |h| == HEADER
  {
    seq(HEADER, i requires 0 <= i < HEADER => p.ring[Slot(head + i, z.R)])
  }

  predicate RegsOk(a: App, z: Sizes) {
    && SizesOk(z) && a.rxHead < 2 * z.R && a.txHead < 2 * z.T
  }

  /** The next registers, for every state but READY. `go` is the handshake that the state
      waits for, `p` what the pointer memories and the ring hold for the current flow. */
  function NextApp(a: App, go: bool, p: Ptrs, z: Sizes): App
    requires RegsOk(a, z) && |p.ring| == z.R
  {
    match a.st
    case RxPtrsReq => if go then a.(st := RxPtrsResp) else a
    case RxPtrsResp => if go then a.(st := RdReqHdr, rxHead := p.rxHead, rxCommit := p.rxCommit) else a
    case RdReqHdr =>
      if RxUsed(a, z) >= HEADER then (if go then a.(st := WaitReqHdr) else a) else a.(st := RequeueFlow)
    case WaitReqHdr =>
      if go then
        var h := HeaderBytes(p, a.rxHead, z);
        a.(st := TxPtrsReq, rdLen := Field16(h, 0), wrLen := Field16(h, 2), left := Field16(h, 2))
      else a
    case TxPtrsReq =>
      if RxUsed(a, z) - HEADER >= a.rdLen then (if go then a.(st := TxPtrsResp) else a) else a.(st := RequeueFlow)
    case TxPtrsResp => if go then a.(st := CheckWrData, txHead := p.txHead, txTail := p.txTail) else a
    case CheckWrData => if TxLeft(a, z) >= a.wrLen then a.(st := TxWrMemReq) else a.(st := RequeueFlow)
    case TxWrMemReq => if go then a.(st := PayloadCopy) else a
    case PayloadCopy =>
      if go then a.(st := if LastWrite(a) then WaitWrResp else PayloadCopy, left := Minus(a.left, HEADER, LENS)) else a
    case WaitWrResp => if go then a.(st := AdjustRxHead) else a
    case AdjustRxHead => if go then a.(st := AdjustTxTail) else a
    case AdjustTxTail => if go then a.(st := RequeueFlow) else a
    case RequeueFlow => if go then a.(st := Ready) else a
    case Ready => a
  }

  /** The pointer memories after the cycle. */
  function NextPtrs(a: App, go: bool, p: Ptrs, z: Sizes): Ptrs
    requires SizesOk(z)
  {
    if go && a.st == AdjustRxHead then p.(rxHead := Plus(a.rxHead, a.rdLen + HEADER, 2 * z.R))
    else if go && a.st == AdjustTxTail then p.(txTail := Plus(a.txTail, a.wrLen, 2 * z.T))
    else p
  }

  // ----- what the snapshots are worth -----

  predicate RxSnap(a: App, s: Snap, p: Ptrs, c: Counts, z: Sizes)
    requires SizesOk(z)
  {
    a.rxHead == p.rxHead && a.rxCommit == Word(s.commit, 2 * z.R) && c.head <= s.commit <= c.commit
  }

  /** The request at the head of the stream is in the registers, and has arrived whole. */
  predicate Request(a: App, c: Counts) {
    && c.head + HEADER <= |c.S|
    && a.rdLen == RdLen(c.S, c.head) && a.wrLen == WrLen(c.S, c.head) && a.wrLen < LENS
  }

  predicate TxSnap(a: App, s: Snap, p: Ptrs, c: Counts, z: Sizes)
    requires SizesOk(z)
  {
    && a.txTail == p.txTail
    && (c.clean ==> a.txHead == Word(s.txHead, 2 * z.T) && s.txHead <= c.txHead && c.txTail <= s.txHead + z.T)
  }

  /** The space that was free at the snapshot is still free. */
  predicate Room(a: App, s: Snap, c: Counts, z: Sizes) {
    c.clean ==> c.txTail + a.wrLen <= s.txHead + z.T
  }

  /** `beats` write beats carry `wrLen` bytes, and one beat at least is sent. */
  predicate BeatsFor(wrLen: nat, beats: nat) {
    beats > 0 && HEADER * (beats - 1) < (if wrLen == 0 then 1 else wrLen) <= HEADER * beats
  }

  ghost predicate Phase(a: App, s: Snap, p: Ptrs, c: Counts, z: Sizes)
    requires SizesOk(z)
  {
    match a.st
    case Ready | RxPtrsReq | RxPtrsResp | RequeueFlow => true
    case RdReqHdr => RxSnap(a, s, p, c, z)
    case WaitReqHdr => RxSnap(a, s, p, c, z) && c.head + HEADER <= s.commit
    case TxPtrsReq =>
      RxSnap(a, s, p, c, z) && c.head + HEADER <= s.commit && Request(a, c) && a.left == a.wrLen
    case TxPtrsResp =>
      RxSnap(a, s, p, c, z) && c.head + HEADER + a.rdLen <= s.commit && Request(a, c) && a.left == a.wrLen
    case CheckWrData =>
      && RxSnap(a, s, p, c, z) && c.head + HEADER + a.rdLen <= s.commit && Request(a, c) && a.left == a.wrLen
      && TxSnap(a, s, p, c, z)
    case TxWrMemReq | PayloadCopy | WaitWrResp | AdjustRxHead =>
      && RxSnap(a, s, p, c, z) && c.head + HEADER + a.rdLen <= s.commit && Request(a, c)
      && TxSnap(a, s, p, c, z) && Room(a, s, c, z)
      && (a.st == TxWrMemReq ==> a.left == a.wrLen)
      && (a.st == PayloadCopy ==> a.left + HEADER * s.beats == a.wrLen && (s.beats == 0 || a.left > 0))
      && (a.st == WaitWrResp || a.st == AdjustRxHead ==> BeatsFor(a.wrLen, s.beats))
    case AdjustTxTail =>
      && TxSnap(a, s, p, c, z) && Room(a, s, c, z)
      && c.served > 0 && a.wrLen == WrLen(c.S, Start(c.S, c.served - 1))
  }

  /** The application consumes whole requests and answers each in full: the head is always
      the start of a request, and the transmit tail lags by at most the current one. */
  predicate Consumed(c: Counts, midway: bool) {
    && c.head == Start(c.S, c.served)
    && (midway ==> c.served > 0)
    && c.txTail == c.iss + Replied(c.S, if midway && c.served > 0 then c.served - 1 else c.served)
  }

  /** The counters after the cycle. */
  function NextCounts(a: App, go: bool, c: Counts): Counts {
    if go && a.st == AdjustRxHead then c.(head := c.head + (a.rdLen + HEADER), served := c.served + 1)
    else if go && a.st == AdjustTxTail then c.(txTail := c.txTail + a.wrLen)
    else c
  }

  function NextSnap(a: App, go: bool, c: Counts, s: Snap): Snap {
    if !go then s
    else match a.st
      case RxPtrsResp => s.(commit := c.commit)
      case TxPtrsResp => s.(txHead := c.txHead)
      case TxWrMemReq => s.(beats := 0)
      case PayloadCopy => s.(beats := s.beats + 1)
      case _ => s
  }

  /** The header read from the ring is the header in the stream. */
  lemma HeaderFromStream(p: Ptrs, c: Counts, z: Sizes)
    requires FlowOk(p, c, z) && c.head + HEADER <= c.commit
    ensures HeaderBytes(p, p.rxHead, z) == c.S[c.head..c.head + HEADER]
  {
    hide Word, Slot;
    var h := HeaderBytes(p, p.rxHead, z);
    forall i | 0 <= i < HEADER
      ensures h[i] == c.S[c.head + i]
    {
      SlotOfWord(c.head, i, z.R);
    }
  }

  /** What holds between the application, the flow it serves and the counters. */
  ghost predicate Serving(a: App, s: Snap, p: Ptrs, c: Counts, z: Sizes) {
    && RegsOk(a, z) && FlowOk(p, c, z) && Phase(a, s, p, c, z) && Consumed(c, a.st == AdjustTxTail)
  }

  lemma RingSize(p: Ptrs, c: Counts, z: Sizes)
    requires FlowOk(p, c, z)
    ensures |p.ring| == z.R && p.rxHead < 2 * z.R && p.txHead < 2 * z.T
  {
  }

  /** Reading the receive pointers and the request header. */
  lemma ReadSide(a: App, go: bool, s: Snap, p: Ptrs, c: Counts, z: Sizes)
    requires Serving(a, s, p, c, z) && |p.ring| == z.R
    requires a.st in {RxPtrsReq, RxPtrsResp, RdReqHdr, WaitReqHdr, TxPtrsReq}
    ensures Serving(NextApp(a, go, p, z), NextSnap(a, go, c, s), p, c, z)
  {
    hide Word, Minus, HeadsOk, Start, Replied;
    RingSize(p, c, z);
    if a.st == WaitReqHdr {
      HeaderFromStream(p, c, z);
    }
    hide RingOk, DeliveryOk;
    if a.st == RdReqHdr || a.st == TxPtrsReq {
      MinusWord(s.commit, c.head, 2 * z.R);
    }
  }

  /** Reading the transmit pointers and writing the reply. */
  lemma WriteSide(a: App, go: bool, s: Snap, p: Ptrs, c: Counts, z: Sizes)
    requires Serving(a, s, p, c, z) && |p.ring| == z.R
    requires a.st in {TxPtrsResp, CheckWrData, TxWrMemReq, WaitWrResp, RequeueFlow}
    ensures Serving(NextApp(a, go, p, z), NextSnap(a, go, c, s), p, c, z)
  {
    hide Word, Minus, HeadsOk, Start, Replied, RingOk, DeliveryOk;
    if a.st == CheckWrData && c.clean {
      var used := c.txTail - s.txHead;
      MinusWord(c.txTail, s.txHead, 2 * z.T);
      Small(used, 2 * z.T);
      Small(z.T, 2 * z.T);
      MinusWord(z.T, used, 2 * z.T);
    }
  }

  lemma WriteBeat(a: App, go: bool, s: Snap, p: Ptrs, c: Counts, z: Sizes)
    requires Serving(a, s, p, c, z) && |p.ring| == z.R && a.st == PayloadCopy
    ensures Serving(NextApp(a, go, p, z), NextSnap(a, go, c, s), p, c, z)
  {
    hide Word, Minus, HeadsOk, Start, Replied, RingOk, DeliveryOk;
    if a.left >= HEADER {
      Small(a.left, LENS);
      Small(HEADER, LENS);
      MinusWord(a.left, HEADER, LENS);
    }
  }

  /** Moving the receive head by one request. */
  lemma MoveHead(a: App, s: Snap, p: Ptrs, c: Counts, z: Sizes)
    requires Serving(a, s, p, c, z) && |p.ring| == z.R && a.st == AdjustRxHead
    ensures Serving(NextApp(a, true, p, z), s, NextPtrs(a, true, p, z), NextCounts(a, true, c), z)
  {
    hide Word, Minus, Plus, FlowOk, RdLen, WrLen, BeatsFor;
    ConsumeKeeps(p, c, z, a.rdLen + HEADER, c.served + 1);
  }

  /** Moving the transmit tail by its reply. */
  lemma MoveTail(a: App, s: Snap, p: Ptrs, c: Counts, z: Sizes)
    requires Serving(a, s, p, c, z) && |p.ring| == z.R && a.st == AdjustTxTail
    ensures Serving(NextApp(a, true, p, z), s, NextPtrs(a, true, p, z), NextCounts(a, true, c), z)
  {
    hide Word, Minus, Plus, FlowOk, RdLen, WrLen;
    ProduceKeeps(p, c, z, a.wrLen);
  }

  /** Every cycle of the application keeps the flow it serves sound. */
  lemma AppKeeps(a: App, go: bool, s: Snap, p: Ptrs, c: Counts, z: Sizes)
    requires Serving(a, s, p, c, z) && a.st != Ready
    ensures |p.ring| == z.R
    ensures Serving(NextApp(a, go, p, z), NextSnap(a, go, c, s), NextPtrs(a, go, p, z), NextCounts(a, go, c), z)
  {
    RingSize(p, c, z);
    if a.st in {RxPtrsReq, RxPtrsResp, RdReqHdr, WaitReqHdr, TxPtrsReq} {
      ReadSide(a, go, s, p, c, z);
    } else if a.st in {TxPtrsResp, CheckWrData, TxWrMemReq, WaitWrResp, RequeueFlow} {
      WriteSide(a, go, s, p, c, z);
    } else if a.st == PayloadCopy {
      WriteBeat(a, go, s, p, c, z);
    } else if go && a.st == AdjustRxHead {
      MoveHead(a, s, p, c, z);
    } else if go {
      MoveTail(a, s, p, c, z);
    }
    hide Serving;
  }

  /** The application gives up on a flow exactly when, at its snapshot, the header or the
      rest of the request was not committed yet or the reply did not fit. */
  lemma GivesUpIff(a: App, go: bool, s: Snap, p: Ptrs, c: Counts, z: Sizes)
    requires Serving(a, s, p, c, z) && |p.ring| == z.R && a.st !in {Ready, RequeueFlow, AdjustTxTail}
    ensures NextApp(a, go, p, z).st == RequeueFlow <==>
      match a.st
      case RdReqHdr => s.commit < c.head + HEADER
      case TxPtrsReq => s.commit < c.head + HEADER + RdLen(c.S, c.head)
      case CheckWrData => if c.clean then c.txTail + WrLen(c.S, c.head) > s.txHead + z.T else TxLeft(a, z) < WrLen(c.S, c.head)
      case _ => false
  {
    hide Word, Minus, HeadsOk, Start, Replied, RingOk, DeliveryOk, RdLen, WrLen, HeaderBytes;
    if a.st == CheckWrData && c.clean {
      var used := c.txTail - s.txHead;
      MinusWord(c.txTail, s.txHead, 2 * z.T);
      Small(used, 2 * z.T);
      Small(z.T, 2 * z.T);
      MinusWord(z.T, used, 2 * z.T);
    } else if a.st == RdReqHdr || a.st == TxPtrsReq {
      MinusWord(s.commit, c.head, 2 * z.R);
    }
  }

  /** Nothing another engine does invalidates a snapshot. */
  lemma SnapshotsAge(a: App, s: Snap, p: Ptrs, c: Counts, p1: Ptrs, c1: Counts, z: Sizes)
    requires Serving(a, s, p, c, z) && FlowOk(p1, c1, z)
    requires p1.rxHead == p.rxHead && p1.txTail == p.txTail
    requires c1.S == c.S && c1.iss == c.iss && c1.head == c.head && c1.txTail == c.txTail && c1.served == c.served
    requires c.commit <= c1.commit && (c1.clean ==> c.clean && c.txHead <= c1.txHead)
    ensures Serving(a, s, p1, c1, z)
  {
    hide FlowOk, Word;
  }

  // ----- the order of the handshakes -----

  /** What the application asks of its neighbours, and what they answer. */
  datatype Event =
    | RxPtrsAsked | RxPtrsRead | HeaderAsked | HeaderRead | TxPtrsAsked | TxPtrsRead
    | WriteAsked | BeatWritten | WriteDone | HeadMoved | TailMoved

  /** The handshake that fires in a cycle: each state offers one at most, two of them only if
      the bytes are there. */
  function Fired(a: App, go: bool, z: Sizes): seq<Event>
    requires RegsOk(a, z)
  {
    if !go then []
    else match a.st
      case RxPtrsReq => [RxPtrsAsked]
      case RxPtrsResp => [RxPtrsRead]
      case RdReqHdr => Maybe(RxUsed(a, z) >= HEADER, HeaderAsked)
      case WaitReqHdr => [HeaderRead]
      case TxPtrsReq => Maybe(RxUsed(a, z) - HEADER >= a.rdLen, TxPtrsAsked)
      case TxPtrsResp => [TxPtrsRead]
      case TxWrMemReq => [WriteAsked]
      case PayloadCopy => [BeatWritten]
      case WaitWrResp => [WriteDone]
      case AdjustRxHead => [HeadMoved]
      case AdjustTxTail => [TailMoved]
      case CheckWrData | RequeueFlow | Ready => []
  }

  /** The handshakes since the application turned to the flow. */
  function NextCourse(a: App, go: bool, es: seq<Event>, z: Sizes): seq<Event>
    requires RegsOk(a, z)
  {
    (if a.st == RxPtrsReq then [] else es) + Fired(a, go, z)
  }

  /** All that is read before a reply is written. */
  const READS: seq<Event> := [RxPtrsAsked, RxPtrsRead, HeaderAsked, HeaderRead, TxPtrsAsked, TxPtrsRead]

  function Writing(beats: nat): seq<Event> {
    READS + [WriteAsked] + seq(beats, _ => BeatWritten)
  }

  /** The reply has been written with as many beats as it takes, and then came `more`. */
  predicate Wrote(es: seq<Event>, wrLen: nat, more: seq<Event>) {
    var n := |es| - |more| - |READS| - 1;
    n >= 0 && es == Writing(n) + more && BeatsFor(wrLen, n)
  }

  /** What must have happened for the application to be in its state. */
  predicate CourseOk(a: App, es: seq<Event>) {
    match a.st
    case Ready | RxPtrsReq => true
    case RxPtrsResp => es == READS[..1]
    case RdReqHdr => es == READS[..2]
    case WaitReqHdr => es == READS[..3]
    case TxPtrsReq => es == READS[..4] && a.left == a.wrLen < LENS
    case TxPtrsResp => es == READS[..5] && a.left == a.wrLen < LENS
    case CheckWrData | TxWrMemReq => es == READS && a.left == a.wrLen < LENS
    case PayloadCopy =>
      var n := |es| - |READS| - 1;
      n >= 0 && es == Writing(n) && a.left + HEADER * n == a.wrLen < LENS && (n == 0 || a.left > 0)
    case WaitWrResp => Wrote(es, a.wrLen, [])
    case AdjustRxHead => Wrote(es, a.wrLen, [WriteDone])
    case AdjustTxTail => Wrote(es, a.wrLen, [WriteDone, HeadMoved])
    case RequeueFlow =>
      es == READS[..2] || es == READS[..4] || es == READS || Wrote(es, a.wrLen, [WriteDone, HeadMoved, TailMoved])
  }

  lemma CourseReads(a: App, go: bool, es: seq<Event>, p: Ptrs, z: Sizes)
    requires RegsOk(a, z) && |p.ring| == z.R && CourseOk(a, es)
    requires a.st in {RxPtrsReq, RxPtrsResp, RdReqHdr, WaitReqHdr, TxPtrsReq, TxPtrsResp, CheckWrData, RequeueFlow, Ready}
    ensures CourseOk(NextApp(a, go, p, z), NextCourse(a, go, es, z))
  {
    hide Minus, Word, HeaderBytes, Writing, BeatsFor, Wrote;
    assert es + [] == es;
  }

  lemma CourseBeat(a: App, go: bool, es: seq<Event>, p: Ptrs, z: Sizes)
    requires RegsOk(a, z) && |p.ring| == z.R && CourseOk(a, es) && (a.st == TxWrMemReq || a.st == PayloadCopy)
    ensures CourseOk(NextApp(a, go, p, z), NextCourse(a, go, es, z))
  {
    hide Minus, Word, HeaderBytes, Writing;
    WritingMore(es);
    if a.st == PayloadCopy && a.left >= HEADER {
      Small(a.left, LENS);
      Small(HEADER, LENS);
      MinusWord(a.left, HEADER, LENS);
    }
  }

  lemma WritingMore(es: seq<Event>)
    ensures Writing(0) == READS + [WriteAsked]
    ensures var n := |es| - |READS| - 1;
      n >= 0 && es == Writing(n) ==> es + [BeatWritten] == Writing(n + 1) && |Writing(n + 1)| == |READS| + 2 + n
  {
  }

  lemma CourseEnds(a: App, go: bool, es: seq<Event>, p: Ptrs, z: Sizes)
    requires RegsOk(a, z) && |p.ring| == z.R && CourseOk(a, es) && a.st in {WaitWrResp, AdjustRxHead, AdjustTxTail}
    ensures CourseOk(NextApp(a, go, p, z), NextCourse(a, go, es, z))
  {
    hide Minus, Word, HeaderBytes, Writing, BeatsFor;
  }

  /** The application never skips a handshake or takes two in another order: pointers are read
      before they are used, and head and tail move only after every beat of the reply has been
      handed over and the write engine has said that it is done. */
  lemma CourseKeeps(a: App, go: bool, es: seq<Event>, p: Ptrs, z: Sizes)
    requires RegsOk(a, z) && |p.ring| == z.R && CourseOk(a, es)
    ensures CourseOk(NextApp(a, go, p, z), NextCourse(a, go, es, z))
  {
    hide CourseOk, NextApp, NextCourse;
    if a.st == TxWrMemReq || a.st == PayloadCopy {
      CourseBeat(a, go, es, p, z);
    } else if a.st in {WaitWrResp, AdjustRxHead, AdjustTxTail} {
      CourseEnds(a, go, es, p, z);
    } else {
      CourseReads(a, go, es, p, z);
    }
  }

  /** A reply takes as many beats as its bytes need, except that an empty one takes a
      beat all the same. */
  lemma BeatsExact(wrLen: nat, beats: nat)
    requires BeatsFor(wrLen, beats)
    ensures beats == (wrLen + (HEADER - 1)) / HEADER <==> wrLen > 0
    ensures wrLen == 0 ==> beats == 1
  {
  }

  /** The number of unstalled cycles the application can still spend on a flow. */
  function Rank(a: App): nat {
    match a.st
    case Ready => 0
    case RequeueFlow => 1
    case AdjustTxTail => 2
    case AdjustRxHead => 3
    case WaitWrResp => 4
    case PayloadCopy => 5 + a.left / HEADER
    case TxWrMemReq => 6 + a.left / HEADER
    case CheckWrData => 7 + a.left / HEADER
    case TxPtrsResp => 8 + a.left / HEADER
    case TxPtrsReq => 9 + a.left / HEADER
    case WaitReqHdr => 10 + LENS / HEADER
    case RdReqHdr => 11 + LENS / HEADER
    case RxPtrsResp => 12 + LENS / HEADER
    case RxPtrsReq => 13 + LENS / HEADER
  }

  /** Every cycle in which the awaited handshake is there brings the application closer to
      giving the flow back; any other leaves it where it is or does the same. */
  lemma RankFalls(a: App, go: bool, s: Snap, p: Ptrs, c: Counts, z: Sizes)
    requires Serving(a, s, p, c, z) && |p.ring| == z.R && a.st != Ready
    ensures Rank(NextApp(a, go, p, z)) < Rank(a) || (!go && NextApp(a, go, p, z) == a)
  {
    hide FlowOk, Minus, Word, Start, Replied, RdLen, WrLen, BeatsFor, HeaderBytes;
    if a.st == PayloadCopy && go && !LastWrite(a) {
      Small(a.left, LENS);
      Small(HEADER, LENS);
      MinusWord(a.left, HEADER, LENS);
      assert (a.left - HEADER) / HEADER == a.left / HEADER - 1;
    }
  }
}
