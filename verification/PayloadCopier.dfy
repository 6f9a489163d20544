/** The payload copier: accepted payloads wait in a queue that all flows share, and a state
    machine copies them into the receive ring of their flow and then moves its commit
    pointer. */
module PayloadCopier {
  import opened Streams
  import opened Modular
  import opened RecvFlow

  const BEAT: nat := 32 // bytes of a transfer

  /** What the writeback stage queues for a packet with a payload. */
  datatype Entry = Entry(id: nat, accept: bool, payload: seq<byte>)

  datatype CpState = CpReady | CommitResp | CopyStart | DataCopy | CopyWait | UpdatePointer | FreeSlab

  /** The copier's registers: the queue entry, the commit pointer read for it, and the bytes
      left to copy. */
  datatype Copier = Copier(st: CpState, entry: Entry, commit: nat, left: nat)

  predicate Busy(cp: Copier) {
    cp.st != CpReady && cp.st != FreeSlab
  }

  /** The accepted bytes of a flow that wait in the queue. */
  function Queued(q: seq<Entry>, id: nat): seq<byte> {
    if q == [] then []
    else (if q[0].accept && q[0].id == id then q[0].payload else []) + Queued(q[1..], id)
  }

  /** The accepted bytes of a flow that are not committed yet, in order. */
  function Backlog(cp: Copier, q: seq<Entry>, id: nat): seq<byte> {
    (if Busy(cp) && cp.entry.id == id then cp.entry.payload else []) + Queued(q, id)
  }

  lemma {:induction false} QueuedMore(q: seq<Entry>, e: Entry, id: nat)
    ensures Queued(q + [e], id) == Queued(q, id) + if e.accept && e.id == id then e.payload else []
  {
    if q == [] {
      assert q + [e] == [e] && [e][1..] == [];
    } else {
      assert (q + [e])[1..] == q[1..] + [e];
      QueuedMore(q[1..], e, id);
    }
  }

  /** Behind its commit counter, a flow's accepted bytes are exactly its backlog. */
  predicate BacklogOk(c: Counts, cp: Copier, q: seq<Entry>, id: nat) {
    c.commit <= |c.delivered| && c.delivered[c.commit..] == Backlog(cp, q, id)
  }

  /** How much of the entry has been copied. */
  function Done(cp: Copier): nat {
    match cp.st
    case DataCopy => if cp.left <= |cp.entry.payload| then |cp.entry.payload| - cp.left else 0
    case CopyWait | UpdatePointer => |cp.entry.payload|
    case _ => 0
  }

  /** The copier on the flow of its entry. */
  ghost predicate CopierOk(cp: Copier, p: Ptrs, c: Counts, z: Sizes) {
    && cp.entry.accept && 0 < |cp.entry.payload|
    && (cp.st == CommitResp || cp.commit == p.rxCommit)
    && (cp.st == CommitResp || cp.st == CopyStart ==> cp.left == |cp.entry.payload|)
    && (cp.st == DataCopy ==> 0 < cp.left <= |cp.entry.payload|)
    && Copied(p, c, cp.entry.payload, Done(cp), z)
  }

  /** The copier's next registers. `go` is the handshake its state waits for; the commit
      pointer's read port is idle in READY, and an idle port is ready. */
  function NextCopier(cp: Copier, q: seq<Entry>, go: bool, p: Ptrs): Copier {
    match cp.st
    case CpReady =>
      if q == [] then cp
      else if |q[0].payload| == 0 then cp.(entry := q[0])
      else if !q[0].accept then cp.(entry := q[0], st := FreeSlab)
      else cp.(entry := q[0], st := CommitResp, left := |q[0].payload|)
    case CommitResp => if go then cp.(st := CopyStart, commit := p.rxCommit) else cp
    case CopyStart => if go then cp.(st := DataCopy) else cp
    case DataCopy =>
      if !go then cp
      else if cp.left <= BEAT then cp.(st := CopyWait)
      else cp.(left := cp.left - BEAT)
    case CopyWait => if go then cp.(st := UpdatePointer) else cp
    case UpdatePointer | FreeSlab => if go then cp.(st := CpReady) else cp
  }

  function NextQueue(cp: Copier, q: seq<Entry>): seq<Entry> {
    if cp.st == CpReady && q != [] then q[1..] else q
  }

  /** The bytes of one transfer. */
  function Transfer(cp: Copier): seq<byte> {
    var pay, k := cp.entry.payload, Done(cp);
    if k > |pay| then [] else if |pay| - k <= BEAT then pay[k..] else pay[k..k + BEAT]
  }

  /** The flow's ring and pointers after the cycle. */
  function NextFlow(cp: Copier, go: bool, p: Ptrs, z: Sizes): Ptrs
    requires SizesOk(z) && |p.ring| == z.R
  {
    if cp.st == DataCopy && go then p.(ring := Put(p.ring, cp.commit + Done(cp), Transfer(cp), z.R))
    else if cp.st == UpdatePointer && go then p.(rxCommit := Plus(cp.commit, |cp.entry.payload|, 2 * z.R))
    else p
  }

  function NextCommit(cp: Copier, go: bool, c: Counts): Counts {
    if cp.st == UpdatePointer && go then c.(commit := c.commit + |cp.entry.payload|) else c
  }

  // ----- what each cycle keeps -----

  /** The entry's payload is what comes next behind the commit counter. */
  lemma EntryIsNext(cp: Copier, q: seq<Entry>, c: Counts)
    requires BacklogOk(c, cp, q, cp.entry.id) && Busy(cp)
    ensures c.commit + |cp.entry.payload| <= |c.delivered|
    ensures cp.entry.payload == c.delivered[c.commit..c.commit + |cp.entry.payload|]
    ensures c.delivered[c.commit + |cp.entry.payload|..] == Queued(q, cp.entry.id)
  {
    CutAt(c.delivered, c.commit, cp.entry.payload, Queued(q, cp.entry.id));
  }

  lemma CutAt(d: seq<byte>, at: nat, pay: seq<byte>, rest: seq<byte>)
    requires at <= |d| && d[at..] == pay + rest
    ensures at + |pay| <= |d| && pay == d[at..at + |pay|] && d[at + |pay|..] == rest
  {
    var n := at + |pay|;
    assert |d| - at == |pay| + |rest|;
    assert d[at..n] == d[at..][..|pay|] == pay;
    assert d[n..] == d[at..][|pay|..] == rest;
  }

  /** A busy copier's cycle on the flow of its entry. */
  lemma CycleKeeps(cp: Copier, q: seq<Entry>, go: bool, p: Ptrs, c: Counts, z: Sizes)
    requires FlowOk(p, c, z) && Busy(cp) && CopierOk(cp, p, c, z) && BacklogOk(c, cp, q, cp.entry.id)
    ensures |p.ring| == z.R
    ensures FlowOk(NextFlow(cp, go, p, z), NextCommit(cp, go, c), z)
    ensures var cp1 := NextCopier(cp, q, go, p);
      && (Busy(cp1) ==> cp1.entry == cp.entry && CopierOk(cp1, NextFlow(cp, go, p, z), NextCommit(cp, go, c), z))
      && BacklogOk(NextCommit(cp, go, c), cp1, q, cp.entry.id)
  {
    hide FlowOk, Queued, Put, Plus, Copied;
    RingSizes(p, c, z);
    if cp.st == DataCopy && go {
      TransferKeeps(cp, q, p, c, z);
    } else if cp.st == UpdatePointer && go {
      EntryIsNext(cp, q, c);
      CommitKeeps(p, c, z, cp.entry.payload);
      assert [] + Queued(q, cp.entry.id) == Queued(q, cp.entry.id);
    }
  }

  /** One transfer copies the next bytes of the entry. */
  lemma TransferKeeps(cp: Copier, q: seq<Entry>, p: Ptrs, c: Counts, z: Sizes)
    requires FlowOk(p, c, z) && cp.st == DataCopy && CopierOk(cp, p, c, z) && BacklogOk(c, cp, q, cp.entry.id) && |p.ring| == z.R
    ensures FlowOk(NextFlow(cp, true, p, z), c, z)
    ensures CopierOk(NextCopier(cp, q, true, p), NextFlow(cp, true, p, z), c, z)
  {
    hide FlowOk, Queued, Put, Copied;
    EntryIsNext(cp, q, c);
    RingSizes(p, c, z);
    hide BacklogOk;
    var k, n := Done(cp), |Transfer(cp)|;
    assert Transfer(cp) == cp.entry.payload[k..k + n] && k + n <= |cp.entry.payload|;
    PutWord(p.ring, c.commit, k, Transfer(cp), z.R);
    CopyBytesKeep(p, c, z, cp.entry.payload, k, Transfer(cp));
    assert Done(NextCopier(cp, q, true, p)) == k + n;
  }

  lemma RingSizes(p: Ptrs, c: Counts, z: Sizes)
    requires FlowOk(p, c, z)
    ensures |p.ring| == z.R && SizesOk(z) && |c.delivered| == c.tail && p.rxCommit == Word(c.commit, 2 * z.R)
  {
    hide Word, Slot;
  }

  /** Taking an entry from the queue moves its bytes from the queue to the copier. */
  lemma TakeKeeps(cp: Copier, q: seq<Entry>, go: bool, p: Ptrs, id: nat)
    requires cp.st == CpReady
    ensures Backlog(NextCopier(cp, q, go, p), NextQueue(cp, q), id) == Backlog(cp, q, id)
  {
    if q != [] {
      var cp1 := NextCopier(cp, q, go, p);
      assert [] + Queued(q, id) == Queued(q, id);
      assert !Busy(cp1) ==> (q[0].accept ==> q[0].payload == []);
    }
  }

  /** The other flows of a busy copier's cycle. */
  lemma OthersKeep(cp: Copier, q: seq<Entry>, go: bool, p: Ptrs, id: nat)
    requires Busy(cp) && id != cp.entry.id
    ensures Backlog(NextCopier(cp, q, go, p), q, id) == Backlog(cp, q, id)
  {
  }

  /** Queueing an accepted packet extends the backlog of its flow by its payload. */
  lemma QueueKeeps(c: Counts, cp: Copier, q: seq<Entry>, id: nat, e: Entry, c1: Counts)
    requires BacklogOk(c, cp, q, id) && c1.commit == c.commit
    requires c1.delivered == c.delivered + if e.accept && e.id == id then e.payload else []
    ensures BacklogOk(c1, cp, q + [e], id)
  {
    QueuedMore(q, e, id);
    hide Queued;
    var more := if e.accept && e.id == id then e.payload else [];
    assert (c.delivered + more)[c.commit..] == c.delivered[c.commit..] + more;
    Assoc(if Busy(cp) && cp.entry.id == id then cp.entry.payload else [], Queued(q, id), more);
  }

  /** The number of unstalled cycles the copier can still spend on an entry. */
  function Rank(cp: Copier): nat {
    match cp.st
    case CpReady => 0
    case FreeSlab | UpdatePointer => 1
    case CopyWait => 2
    case DataCopy => 3 + cp.left / BEAT
    case CopyStart => 4 + cp.left / BEAT
    case CommitResp => 5 + cp.left / BEAT
  }

  lemma RankFalls(cp: Copier, q: seq<Entry>, go: bool, p: Ptrs)
    requires cp.st != CpReady
    ensures if go then Rank(NextCopier(cp, q, go, p)) < Rank(cp) else NextCopier(cp, q, go, p) == cp
  {
    if cp.st == DataCopy && cp.left > BEAT {
      assert (cp.left - BEAT) / BEAT == cp.left / BEAT - 1;
    }
  }

  // ----- the order of the handshakes -----

  /** What the copier asks of its neighbours, and what they answer. */
  datatype Event = EntryTaken | CommitRead | CopyAsked | BeatCopied | CopyDone | Committed | Freed

  /** The handshake that fires in a cycle. */
  function Fired(cp: Copier, q: seq<Entry>, go: bool): seq<Event> {
    match cp.st
    case CpReady => Maybe(q != [], EntryTaken)
    case CommitResp => Maybe(go, CommitRead)
    case CopyStart => Maybe(go, CopyAsked)
    case DataCopy => Maybe(go, BeatCopied)
    case CopyWait => Maybe(go, CopyDone)
    case UpdatePointer => Maybe(go, Committed)
    case FreeSlab => Maybe(go, Freed)
  }

  /** The handshakes for the entry taken last. */
  function NextCourse(cp: Copier, q: seq<Entry>, go: bool, es: seq<Event>): seq<Event> {
    (if cp.st == CpReady && q != [] then [] else es) + Fired(cp, q, go)
  }

  function Copying(beats: nat): seq<Event> {
    [EntryTaken, CommitRead, CopyAsked] + seq(beats, _ => BeatCopied)
  }

  /** The payload has been copied, in as many transfers as it takes, and then came `more`. */
  predicate CopiedWhole(es: seq<Event>, e: Entry, more: seq<Event>) {
    var n := |es| - |more| - 3;
    n >= 0 && es == Copying(n) + more && BEAT * (n - 1) < |e.payload| <= BEAT * n
  }

  /** What an entry takes: nothing for an empty payload, its slab freed for a rejected one, and
      for an accepted one a commit after the copy is done. */
  predicate Handled(e: Entry, es: seq<Event>) {
    if e.payload == [] then es == [EntryTaken]
    else if !e.accept then es == [EntryTaken, Freed]
    else CopiedWhole(es, e, [CopyDone, Committed])
  }

  /** What must have happened for the copier to be in its state. */
  predicate CourseOk(cp: Copier, es: seq<Event>) {
    && (cp.st != CpReady ==> cp.entry.payload != [] && (cp.st == FreeSlab <==> !cp.entry.accept))
    && match cp.st
       case CpReady => es == [] || Handled(cp.entry, es)
       case FreeSlab => es == [EntryTaken]
       case CommitResp => es == [EntryTaken] && cp.left == |cp.entry.payload|
       case CopyStart => es == [EntryTaken, CommitRead] && cp.left == |cp.entry.payload|
       case DataCopy =>
         var n := |es| - 3;
         n >= 0 && es == Copying(n) && cp.left + BEAT * n == |cp.entry.payload| && cp.left > 0
       case CopyWait => CopiedWhole(es, cp.entry, [])
       case UpdatePointer => CopiedWhole(es, cp.entry, [CopyDone])
  }

  /** The copier never skips a handshake or takes two in another order: a slab is given back for
      every rejected payload, and the commit pointer moves only after the write engine has said
      that the last transfer is in the ring. */
  lemma CourseKeeps(cp: Copier, q: seq<Entry>, go: bool, p: Ptrs, es: seq<Event>)
    requires CourseOk(cp, es)
    ensures CourseOk(NextCopier(cp, q, go, p), NextCourse(cp, q, go, es))
  {
    hide CopiedWhole, Copying;
    assert es + [] == es;
    if cp.st == CopyStart || cp.st == DataCopy {
      CopyingMore(es, cp.entry);
    } else if cp.st == CopyWait || cp.st == UpdatePointer {
      CopyEnds(es, cp.entry);
    }
  }

  lemma CopyingMore(es: seq<Event>, e: Entry)
    ensures Copying(0) == [EntryTaken, CommitRead] + [CopyAsked]
    ensures var n := |es| - 3;
      n >= 0 && es == Copying(n) ==>
        && es + [BeatCopied] == Copying(n + 1) && |Copying(n + 1)| == n + 4
        && (BEAT * n < |e.payload| <= BEAT * (n + 1) ==> CopiedWhole(es + [BeatCopied], e, []))
  {
    assert es + [BeatCopied] + [] == es + [BeatCopied];
  }

  lemma CopyEnds(es: seq<Event>, e: Entry)
    ensures CopiedWhole(es, e, []) ==> CopiedWhole(es + [CopyDone], e, [CopyDone])
    ensures CopiedWhole(es, e, [CopyDone]) ==> CopiedWhole(es + [Committed], e, [CopyDone, Committed])
  {
    hide Copying;
    assert [CopyDone] + [Committed] == [CopyDone, Committed];
  }

  // ----- all flows -----

  /** The queue and the copier against the flows: behind each commit counter comes that
      flow's backlog, whole and in order. */
  ghost predicate PipeOk(flows: map<nat, Ptrs>, counts: map<nat, Counts>, cp: Copier, q: seq<Entry>, z: Sizes) {
    && flows.Keys == counts.Keys
    && (forall id :: id in counts ==> BacklogOk(counts[id], cp, q, id))
    && (forall i :: 0 <= i < |q| ==> q[i].id in flows)
    && (Busy(cp) ==> cp.entry.id in flows && CopierOk(cp, flows[cp.entry.id], counts[cp.entry.id], z))
  }

  /** Steps that touch neither commit pointers nor rings nor what was accepted. */
  lemma PipeSame(flows: map<nat, Ptrs>, counts: map<nat, Counts>, cp: Copier, q: seq<Entry>, z: Sizes, id: nat, p1: Ptrs, c1: Counts)
    requires PipeOk(flows, counts, cp, q, z) && id in flows
    requires p1.rxCommit == flows[id].rxCommit && p1.ring == flows[id].ring
    requires c1.commit == counts[id].commit && c1.delivered == counts[id].delivered
    ensures PipeOk(flows[id := p1], counts[id := c1], cp, q, z)
  {
    hide Queued, Slot;
  }

  /** A packet is decided on and, if it has a payload, queued. */
  lemma PipeReceive(flows: map<nat, Ptrs>, counts: map<nat, Counts>, cp: Copier, q: seq<Entry>, z: Sizes, id: nat, p1: Ptrs,
                    pkt: Packet, accept: bool)
    requires PipeOk(flows, counts, cp, q, z) && id in flows && |counts[id].heads| > 0
    requires p1.rxCommit == flows[id].rxCommit && p1.ring == flows[id].ring
    ensures PipeOk(flows[id := p1], counts[id := Counted(counts[id], pkt, accept)], cp,
                   q + Maybe(|pkt.payload| > 0, Entry(id, accept, pkt.payload)), z)
  {
    hide Queued, Slot, CopierOk, BacklogOk;
    var e, c1 := Entry(id, accept, pkt.payload), Counted(counts[id], pkt, accept);
    var q1 := q + Maybe(|pkt.payload| > 0, e);
    var counts1 := counts[id := c1];
    forall k | k in counts1
      ensures BacklogOk(counts1[k], cp, q1, k)
    {
      assert !(accept && k == id) ==> counts[k].delivered + [] == counts[k].delivered;
      if |pkt.payload| > 0 {
        QueueKeeps(counts[k], cp, q, k, e, counts1[k]);
      } else {
        assert q1 == q && pkt.payload == [];
        SameBacklog(counts[k], counts1[k], cp, q, k);
      }
    }
    if Busy(cp) && cp.entry.id == id {
      SameCopy(cp, flows[id], counts[id], p1, c1, z);
    }
  }

  lemma SameBacklog(c: Counts, c1: Counts, cp: Copier, q: seq<Entry>, id: nat)
    requires BacklogOk(c, cp, q, id) && c1.commit == c.commit && c1.delivered == c.delivered
    ensures BacklogOk(c1, cp, q, id)
  {
  }

  lemma SameCopy(cp: Copier, p: Ptrs, c: Counts, p1: Ptrs, c1: Counts, z: Sizes)
    requires CopierOk(cp, p, c, z) && p1.rxCommit == p.rxCommit && p1.ring == p.ring && c1.commit == c.commit
    ensures CopierOk(cp, p1, c1, z)
  {
  }

  /** A cycle of the copier that works on an entry. */
  lemma PipeCycle(flows: map<nat, Ptrs>, counts: map<nat, Counts>, cp: Copier, q: seq<Entry>, z: Sizes, go: bool)
    requires PipeOk(flows, counts, cp, q, z) && Busy(cp)
    requires FlowOk(flows[cp.entry.id], counts[cp.entry.id], z)
    ensures var id := cp.entry.id;
      && |flows[id].ring| == z.R && SizesOk(z)
      && FlowOk(NextFlow(cp, go, flows[id], z), NextCommit(cp, go, counts[id]), z)
      && PipeOk(flows[id := NextFlow(cp, go, flows[id], z)], counts[id := NextCommit(cp, go, counts[id])],
                NextCopier(cp, q, go, flows[id]), q, z)
  {
    var id := cp.entry.id;
    var p, c := flows[id], counts[id];
    RingSizes(p, c, z);
    CycleKeeps(cp, q, go, p, c, z);
    var cp1, counts1 := NextCopier(cp, q, go, p), counts[id := NextCommit(cp, go, c)];
    hide FlowOk, CopierOk, NextFlow, NextCommit, Queued;
    forall k | k in counts1
      ensures BacklogOk(counts1[k], cp1, q, k)
    {
      if k != id {
        OthersKeep(cp, q, go, p, k);
      }
    }
    hide NextCopier, BacklogOk;
  }

  /** A cycle of the copier in READY or while it frees a slab. */
  lemma PipeTake(flows: map<nat, Ptrs>, counts: map<nat, Counts>, cp: Copier, q: seq<Entry>, z: Sizes, go: bool, p: Ptrs)
    requires PipeOk(flows, counts, cp, q, z) && !Busy(cp)
    requires forall id :: id in flows ==> SizesOk(z) && |flows[id].ring| == z.R
    ensures PipeOk(flows, counts, NextCopier(cp, q, go, p), NextQueue(cp, q), z)
  {
    hide Queued, Backlog, Slot;
    var cp1, q1 := NextCopier(cp, q, go, p), NextQueue(cp, q);
    forall id | id in counts
      ensures BacklogOk(counts[id], cp1, q1, id)
    {
      if cp.st == CpReady {
        TakeKeeps(cp, q, go, p, id);
      } else {
        FreeKeeps(cp, q, go, p, id);
      }
    }
    hide BacklogOk;
  }

  lemma FreeKeeps(cp: Copier, q: seq<Entry>, go: bool, p: Ptrs, id: nat)
    requires cp.st == FreeSlab
    ensures Backlog(NextCopier(cp, q, go, p), q, id) == Backlog(cp, q, id) && NextQueue(cp, q) == q
  {
  }
}
