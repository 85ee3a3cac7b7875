/** What the receiving loop of session.hpp leaves on a disk that takes a given number of writes. */
module Disks {
  import opened Bytes
  import opened NetMessage
  import opened Codec
  import opened Sessions

  /** The data one message adds to the output. */
  function Gain(h: HashFn, st: Recv, m: Message): seq<byte> {
    var next := Take(h, st, m).out;
    if |next| > |st.out| then next[|st.out|..] else []
  }

  lemma GainTaken(h: HashFn, st: Recv, m: Message)
    ensures Take(h, st, m).out == st.out + Gain(h, st, m)
  {
  }

  lemma OnlyChunksAdd(h: HashFn, st: Recv, m: Message)
    requires m.id != CHUNK
    ensures Gain(h, st, m) == []
  {
  }

  /** What a message adds does not depend on what there is. */
  lemma GainSame(h: HashFn, st: Recv, st': Recv, m: Message)
    requires st.finished == st'.finished && st.failed == st'.failed
    ensures Gain(h, st, m) == Gain(h, st', m)
    ensures Take(h, st, m).finished == Take(h, st', m).finished && Take(h, st, m).failed == Take(h, st', m).failed
  {
  }

  /** The non-empty writes of the loop, in order. */
  function Pieces(h: HashFn, ms: seq<Message>): seq<seq<byte>> {
    if ms == [] then []
    else
      var front := ms[..|ms| - 1];
      var data := Gain(h, TakeAll(h, NOTHING, front), ms[|ms| - 1]);
      Pieces(h, front) + (if data == [] then [] else [data])
  }

  lemma PiecesNext(h: HashFn, ms: seq<Message>, m: Message)
    ensures var data := Gain(h, TakeAll(h, NOTHING, ms), m);
            Pieces(h, ms + [m]) == Pieces(h, ms) + (if data == [] then [] else [data])
  {
    assert (ms + [m])[..|ms|] == ms;
  }

  lemma PiecesJoinNext(h: HashFn, front: seq<Message>, m: Message, ms: seq<Message>)
    requires ms == front + [m] && Flatten(Pieces(h, front)) == TakeAll(h, NOTHING, front).out
    ensures Flatten(Pieces(h, ms)) == TakeAll(h, NOTHING, ms).out
  {
    var st := TakeAll(h, NOTHING, front);
    TakeNext(h, front, m);
    GainTaken(h, st, m);
    PiecesNext(h, front, m);
    JoinNext(Pieces(h, front), Gain(h, st, m));
  }

  /** They join to the output of a disk that takes every write. */
  lemma {:induction false} PiecesJoin(h: HashFn, ms: seq<Message>)
    ensures Flatten(Pieces(h, ms)) == TakeAll(h, NOTHING, ms).out
  {
    if ms != [] {
      LastApart(ms);
      PiecesJoin(h, ms[..|ms| - 1]);
      PiecesJoinNext(h, ms[..|ms| - 1], ms[|ms| - 1], ms);
    }
  }

  lemma JoinNext(pieces: seq<seq<byte>>, data: seq<byte>)
    ensures Flatten(pieces + (if data == [] then [] else [data])) == Flatten(pieces) + data
  {
    if data == [] {
      assert pieces + [] == pieces;
    } else {
      assert (pieces + [data])[..|pieces|] == pieces;
    }
  }

  /** More messages only add pieces, and none once the loop is over. */
  lemma {:induction false} PiecesMore(h: HashFn, taken: seq<Message>, all: seq<Message>)
    requires taken <= all
    ensures Pieces(h, taken) <= Pieces(h, all)
    ensures var st := TakeAll(h, NOTHING, taken); st.finished || st.failed ==> Pieces(h, all) == Pieces(h, taken)
  {
    if taken != all {
      var front, m := all[..|all| - 1], all[|all| - 1];
      PiecesMore(h, taken, front);
      TakeMore(h, taken, front);
    }
  }

  // ---------- a disk ----------

  /** A write that fails keeps less than all of its data. */
  function Part(data: seq<byte>, kept: nat): (part: seq<byte>)
    ensures part <= data && (data != [] ==> |part| < |data|)
  {
    if kept < |data| then data[..kept] else data[..if data == [] then 0 else |data| - 1]
  }

  /** What is left of these writes on a disk that takes the first `disk` of them; the next one
      fails and later ones are lost. */
  function OnDisk(pieces: seq<seq<byte>>, disk: nat, kept: nat): seq<byte> {
    if |pieces| <= disk then Flatten(pieces) else Flatten(pieces[..disk]) + Part(pieces[disk], kept)
  }

  lemma OnDiskNext(pieces: seq<seq<byte>>, data: seq<byte>, disk: nat, kept: nat)
    ensures OnDisk(pieces + [data], disk, kept) ==
            if |pieces| < disk then OnDisk(pieces, disk, kept) + data
            else if |pieces| == disk then OnDisk(pieces, disk, kept) + Part(data, kept)
            else OnDisk(pieces, disk, kept)
  {
    var next := pieces + [data];
    assert next[..|pieces|] == pieces;
    if disk <= |pieces| {
      assert next[..disk] == pieces[..disk];
      assert pieces[..|pieces|] == pieces;
    }
  }

  lemma OnDiskMore(pieces: seq<seq<byte>>, more: seq<seq<byte>>, disk: nat, kept: nat)
    requires pieces <= more && |pieces| > disk
    ensures OnDisk(pieces, disk, kept) == OnDisk(more, disk, kept)
  {
    assert pieces[..disk] == more[..disk];
  }

  /** The disk holds everything exactly when it takes as many writes as there are. */
  lemma HoldsAll(pieces: seq<seq<byte>>, disk: nat, kept: nat)
    requires forall i :: 0 <= i < |pieces| ==> pieces[i] != []
    ensures OnDisk(pieces, disk, kept) <= Flatten(pieces)
    ensures OnDisk(pieces, disk, kept) == Flatten(pieces) <==> |pieces| <= disk
  {
    if |pieces| > disk {
      PrefixFlatten(pieces, disk + 1);
      FlattenNext(pieces, disk);
      assert |Part(pieces[disk], kept)| < |pieces[disk]|;
    }
  }

  // ---------- a sender's stream ----------

  /** The messages taken are chunks, and these are their data. */
  ghost predicate TakenAre(h: HashFn, ms: seq<Message>, parts: seq<seq<byte>>) {
    Pieces(h, ms) == parts && TakeAll(h, NOTHING, ms) == Recv(Flatten(parts), false, false)
  }

  lemma OwnPiece(h: HashFn, front: seq<Message>, before: seq<seq<byte>>, data: seq<byte>,
                 ms: seq<Message>, parts: seq<seq<byte>>)
    requires TakenAre(h, front, before) && data != []
    requires ms == front + [ChunkMessage(h, data)] && parts == before + [data]
    ensures TakenAre(h, ms, parts)
  {
    PiecesNext(h, front, ChunkMessage(h, data));
    TakeNext(h, front, ChunkMessage(h, data));
    TakeChunk(h, Flatten(before), data);
    JoinNext(before, data);
  }

  lemma FirstAndNext<T>(s: seq<T>, n: nat)
    requires 0 < n <= |s|
    ensures s[..n] == s[..n - 1] + [s[n - 1]]
  {
  }

  /** The pieces of a sender's first messages are its first chunks. */
  lemma {:induction false} OwnPieces(h: HashFn, file: seq<byte>, size: nat, n: nat)
    requires n <= |ChunkMessages(h, file, size)| && n <= |Chunks(file, size)|
    ensures TakenAre(h, ChunkMessages(h, file, size)[..n], Chunks(file, size)[..n])
  {
    var all, chunks := ChunkMessages(h, file, size), Chunks(file, size);
    if n > 0 {
      OwnPieces(h, file, size, n - 1);
      OneMessagePerChunk(h, file, size, n - 1);
      ChunkSizes(file, size, n - 1);
      FirstAndNext(all, n);
      FirstAndNext(chunks, n);
      OwnPiece(h, all[..n - 1], chunks[..n - 1], chunks[n - 1], all[..n], chunks[..n]);
    }
  }

  lemma SameCount(h: HashFn, file: seq<byte>, size: nat)
    ensures |ChunkMessages(h, file, size)| == |Chunks(file, size)|
  {
    if Chunks(file, size) != [] {
      OneMessagePerChunk(h, file, size, 0);
    }
  }

  /** The pieces of all that a sender sends are its chunks. */
  lemma WholePieces(h: HashFn, file: seq<byte>, size: nat)
    ensures Pieces(h, ChunkMessages(h, file, size) + [FINAL]) == Chunks(file, size)
  {
    var all, chunks := ChunkMessages(h, file, size), Chunks(file, size);
    SameCount(h, file, size);
    OwnPieces(h, file, size, |all|);
    assert all[..|all|] == all && chunks[..|all|] == chunks;
    PiecesNext(h, all, FINAL);
    OnlyChunksAdd(h, TakeAll(h, NOTHING, all), FINAL);
  }

  /** On a sender's whole stream the disk holds the file exactly when it takes as many writes as
      there are chunks. */
  lemma WholeFileIffDiskHolds(h: HashFn, file: seq<byte>, size: nat, disk: nat, kept: nat)
    requires size > 0
    ensures OnDisk(Pieces(h, ChunkMessages(h, file, size) + [FINAL]), disk, kept) == file
            <==> |Chunks(file, size)| <= disk
  {
    WholePieces(h, file, size);
    ChunksJoin(file, size);
    forall i | 0 <= i < |Chunks(file, size)|
      ensures Chunks(file, size)[i] != []
    {
      ChunkSizes(file, size, i);
    }
    HoldsAll(Chunks(file, size), disk, kept);
  }
}
