/** The client sessions of session.hpp: a file is sent as digested chunks and put together again.
    SHA-256 is any function from bytes to digests. */
module Sessions {
  import opened Bytes
  import opened NetMessage
  import opened Codec
  import opened Server
  import opened ServerProofs

  type HashFn = seq<byte> -> Digest

  const FINAL := Message(FINAL_CHUNK, EMPTY)

  // ---------- cutting a file into chunks ----------

  /** How much one read of at most `size` bytes gets. */
  function ReadCount(rest: seq<byte>, size: nat): (n: nat)
    ensures n <= |rest| && n <= size
  {
    if size <= |rest| then size else |rest|
  }

  function Chunks(file: seq<byte>, size: nat): seq<seq<byte>>
    decreases |file|
  {
    if file == [] || size == 0 then []
    else var n := ReadCount(file, size); [file[..n]] + Chunks(file[n..], size)
  }

  /** The message that carries a chunk: the data, then its digest. */
  function ChunkMessage(h: HashFn, data: seq<byte>): Message {
    Message(CHUNK, EncodeChunk(ChunkData(h(data), data)))
  }

  function ChunkMessages(h: HashFn, file: seq<byte>, size: nat): seq<Message>
    decreases |file|
  {
    if file == [] || size == 0 then []
    else var n := ReadCount(file, size); [ChunkMessage(h, file[..n])] + ChunkMessages(h, file[n..], size)
  }

  /** Each chunk travels in one message, under its own digest. */
  lemma {:induction false} OneMessagePerChunk(h: HashFn, file: seq<byte>, size: nat, i: nat)
    requires i < |Chunks(file, size)|
    ensures |ChunkMessages(h, file, size)| == |Chunks(file, size)|
    ensures ChunkMessages(h, file, size)[i] == ChunkMessage(h, Chunks(file, size)[i])
    decreases |file|
  {
    var n := ReadCount(file, size);
    var rest := file[n..];
    if Chunks(rest, size) != [] {
      OneMessagePerChunk(h, rest, size, if i > 0 then i - 1 else 0);
    } else {
      assert ChunkMessages(h, rest, size) == [];
    }
  }

  /** The chunks join to the file. */
  lemma {:induction false} ChunksJoin(file: seq<byte>, size: nat)
    requires size > 0
    ensures Flatten(Chunks(file, size)) == file
    decreases |file|
  {
    if file != [] {
      var n := ReadCount(file, size);
      ChunksJoin(file[n..], size);
      FlattenFirst(file[..n], Chunks(file[n..], size));
      assert file == file[..n] + file[n..];
    }
  }

  /** No chunk is empty, and all but the last have exactly the chunk size. */
  lemma {:induction false} ChunkSizes(file: seq<byte>, size: nat, i: nat)
    requires i < |Chunks(file, size)|
    ensures 0 < |Chunks(file, size)[i]| <= size
    ensures i + 1 < |Chunks(file, size)| ==> |Chunks(file, size)[i]| == size
    decreases |file|
  {
    if i > 0 {
      ChunkSizes(file[ReadCount(file, size)..], size, i - 1);
    }
  }

  /** There are exactly as many chunks as are needed: the size of the file rounded up. */
  lemma {:induction false} ChunkCount(file: seq<byte>, size: nat)
    requires size > 0
    ensures var count := |Chunks(file, size)|;
            |file| <= count * size && (count > 0 ==> (count - 1) * size < |file|)
    decreases |file|
  {
    if file != [] {
      var n := ReadCount(file, size);
      var rest := |Chunks(file[n..], size)|;
      ChunkCount(file[n..], size);
      OneMore(rest, size);
      assert |Chunks(file, size)| == 1 + rest;
    }
  }

  lemma OneMore(count: nat, size: nat)
    ensures (1 + count) * size == count * size + size
    ensures count > 0 ==> count * size == (count - 1) * size + size
  {
  }

  /** A sender that uses the announced chunk size is never refused for the size of a chunk. */
  lemma OwnChunksPass(h: HashFn, file: seq<byte>, i: nat)
    requires i < |Chunks(file, MAX_CHUNK)|
    ensures !Oversized(ChunkMessage(h, Chunks(file, MAX_CHUNK)[i]))
  {
    ChunkSizes(file, MAX_CHUNK, i);
    FilterExact(ChunkMessage(h, Chunks(file, MAX_CHUNK)[i]));
  }

  // ---------- putting the chunks together ----------

  datatype Recv = Recv(out: seq<byte>, finished: bool, failed: bool)

  const NOTHING := Recv([], false, false)

  /** What the receiving loop makes of one message. A chunk too short for a digest would be read
      out of bounds; RelayedChunksDecode excludes it. */
  function Take(h: HashFn, st: Recv, m: Message): Recv {
    if st.finished || st.failed then st
    else if m.id == ABORT then st.(failed := true)
    else if m.id == CHUNK then
      match DecodeChunk(m.body)
      case Short => st.(failed := true)
      case Popped(chunk, _) =>
        if chunk.hash != h(chunk.data) then st.(failed := true) else st.(out := st.out + chunk.data)
    else if m.id == FINAL_CHUNK then st.(finished := true)
    else st
  }

  /** The last 32 bytes are the digest of all before them. */
  predicate Genuine(h: HashFn, body: seq<byte>) {
    |body| >= DIGEST_LENGTH && body[|body| - DIGEST_LENGTH..] == h(body[..|body| - DIGEST_LENGTH])
  }

  /** What stands below the digest. */
  function Front(body: seq<byte>): seq<byte>
    requires |body| >= DIGEST_LENGTH
  {
    body[..|body| - DIGEST_LENGTH]
  }

  /** A transfer goes wrong with an Abort, or with a chunk that is not genuine. */
  predicate Bad(h: HashFn, m: Message) {
    m.id == ABORT || (m.id == CHUNK && !Genuine(h, m.body))
  }

  lemma ChunkParts(b: seq<byte>)
    ensures DecodeChunk(b).Popped? <==> |b| >= DIGEST_LENGTH
    ensures |b| >= DIGEST_LENGTH ==> DecodeChunk(b).value == ChunkData(b[|b| - DIGEST_LENGTH..], Front(b))
  {
    if |b| >= DIGEST_LENGTH {
      var data, hash := Front(b), b[|b| - DIGEST_LENGTH..];
      ChunkRoundTrip([], ChunkData(hash, data));
      assert [] + EncodeChunk(ChunkData(hash, data)) == b;
      assert [] + data == data;
    }
  }

  /** What a message does to a loop that is not over, whoever sent it: the loop fails exactly on an
      Abort and on a chunk under a digest that is not its own, and writes exactly what stands below
      a digest that fits. */
  lemma TakeDecides(h: HashFn, st: Recv, m: Message)
    requires !st.finished && !st.failed
    ensures Take(h, st, m).failed <==> Bad(h, m)
    ensures Take(h, st, m).finished <==> m.id == FINAL_CHUNK
    ensures Take(h, st, m).out == st.out + (if m.id == CHUNK && Genuine(h, m.body) then Front(m.body) else [])
  {
    ChunkParts(m.body);
    assert st.out + [] == st.out;
  }

  function TakeAll(h: HashFn, st: Recv, ms: seq<Message>): Recv
    decreases |ms|
  {
    if ms == [] then st else TakeAll(h, Take(h, st, ms[0]), ms[1..])
  }

  lemma {:induction false} TakeAppend(h: HashFn, st: Recv, a: seq<Message>, b: seq<Message>)
    ensures TakeAll(h, st, a + b) == TakeAll(h, TakeAll(h, st, a), b)
    decreases |a|
  {
    if a == [] {
      assert a + b == b;
    } else {
      TakeAppend(h, Take(h, st, a[0]), a[1..], b);
      assert (a + b)[1..] == a[1..] + b;
    }
  }

  lemma TakeNext(h: HashFn, ms: seq<Message>, m: Message)
    ensures TakeAll(h, NOTHING, ms + [m]) == Take(h, TakeAll(h, NOTHING, ms), m)
  {
    TakeAppend(h, NOTHING, ms, [m]);
    assert [m][1..] == [];
  }

  lemma TakeChunk(h: HashFn, out: seq<byte>, data: seq<byte>)
    ensures Take(h, Recv(out, false, false), ChunkMessage(h, data)) == Recv(out + data, false, false)
  {
    ChunkRoundTrip([], ChunkData(h(data), data));
    assert [] + EncodeChunk(ChunkData(h(data), data)) == EncodeChunk(ChunkData(h(data), data));
    assert [] + data == data;
  }

  /** On any prefix of what a sender sends for a file, the receiver has written a prefix of the
      file and found nothing wrong; it finishes exactly on the whole, and then has the file. */
  lemma {:induction false} StreamToFile(h: HashFn, out: seq<byte>, file: seq<byte>, size: nat, ms: seq<Message>)
    requires size > 0
    requires ms <= ChunkMessages(h, file, size) + [FINAL]
    ensures var st := TakeAll(h, Recv(out, false, false), ms);
            && !st.failed && out <= st.out <= out + file
            && (st.finished <==> ms == ChunkMessages(h, file, size) + [FINAL])
            && (st.finished ==> st.out == out + file)
    decreases |file|
  {
    if ms == [] {
    } else if file == [] {
      assert ms == [FINAL] && ms[1..] == [];
    } else {
      var n := ReadCount(file, size);
      var data, rest := file[..n], file[n..];
      var tail := ChunkMessages(h, rest, size) + [FINAL];
      Assoc([ChunkMessage(h, data)], ChunkMessages(h, rest, size), [FINAL]);
      HeadAndTail(ms, ChunkMessage(h, data), tail);
      TakeChunk(h, out, data);
      StreamToFile(h, out + data, rest, size, ms[1..]);
      assert data + rest == file;
      Assoc(out, data, rest);
    }
  }

  lemma HeadAndTail<T>(ms: seq<T>, x: T, tail: seq<T>)
    requires ms != [] && ms <= [x] + tail
    ensures ms[0] == x && ms[1..] <= tail && (ms[1..] == tail <==> ms == [x] + tail)
  {
    assert ms == [ms[0]] + ms[1..];
    assert ([x] + tail)[1..] == tail;
  }

  lemma {:induction false} TakeKeepsOutput(h: HashFn, st: Recv, ms: seq<Message>)
    ensures st.out <= TakeAll(h, st, ms).out && (st.finished || st.failed ==> TakeAll(h, st, ms) == st)
    decreases |ms|
  {
    if ms != [] {
      TakeKeepsOutput(h, Take(h, st, ms[0]), ms[1..]);
    }
  }

  /** More messages only add to the output, and change nothing once the loop is over. */
  lemma TakeMore(h: HashFn, taken: seq<Message>, all: seq<Message>)
    requires taken <= all
    ensures var st, more := TakeAll(h, NOTHING, taken), TakeAll(h, NOTHING, all);
            st.out <= more.out && (st.finished || st.failed ==> more == st)
  {
    assert taken + all[|taken|..] == all;
    TakeAppend(h, NOTHING, taken, all[|taken|..]);
    TakeKeepsOutput(h, TakeAll(h, NOTHING, taken), all[|taken|..]);
  }
}
