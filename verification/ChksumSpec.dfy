/** What the checksum engine owes for each frame fed to it. */
module ChksumSpec {
  import opened Streams
  import opened OnesComplement

  datatype Cmd = Cmd(enable: bool, offset: nat)

  /** A beat together with the command it was taken under. */
  datatype Tagged = Tagged(beat: Beat, cmd: Cmd)

  /** What goes into the checksum FIFO for a frame. */
  datatype Entry = Entry(csum: nat, cmd: Cmd)

  /** The bus word with the bytes that the keep mask drops set to zero. */
  function Kept(b: Beat): (m: seq<byte>)
    ensures |m| == |b.data|
  {
    if b.pad <= |b.data| then Masked(b.data, b.pad) else b.data
  }

  function WordTotal(beats: seq<Beat>): nat {
    if beats == [] then 0
    else WordTotal(beats[..|beats| - 1]) + LittleSum(Kept(beats[|beats| - 1]))
  }

  /** What a frame's checksum must be. */
  function Checksum(beats: seq<Beat>): nat {
    ONES - Canon(WordTotal(beats))
  }

  function Beats(ts: seq<Tagged>): seq<Beat> {
    if ts == [] then [] else Beats(ts[..|ts| - 1]) + [ts[|ts| - 1].beat]
  }

  /** The checksums owed for the finished frames of a history, oldest first. */
  function Results(ts: seq<Tagged>): seq<Entry> {
    if ts == [] then []
    else
      var init, x := ts[..|ts| - 1], ts[|ts| - 1];
      if x.beat.last then Results(init) + [Entry(Checksum(Open(Beats(init)) + [x.beat]), x.cmd)]
      else Results(init)
  }

  lemma PushTagged(ts: seq<Tagged>, x: Tagged)
    ensures Beats(ts + [x]) == Beats(ts) + [x.beat]
    ensures Results(ts + [x])
         == Results(ts) + if x.beat.last then [Entry(Checksum(Open(Beats(ts)) + [x.beat]), x.cmd)] else []
  {
    assert (ts + [x])[..|ts|] == ts;
  }

  lemma PushWord(beats: seq<Beat>, b: Beat)
    ensures WordTotal(beats + [b]) == WordTotal(beats) + LittleSum(Kept(b))
  {
    assert (beats + [b])[..|beats|] == beats;
  }
}
