/** What the relay is for: a confirmed transfer has delivered the file. */
module EndToEnd {
  import opened Bytes
  import opened NetMessage
  import opened Codec
  import opened Server
  import opened ServerProofs
  import opened Sessions
  import opened Disks
  import opened Relay
  import opened RelayInvariant
  import opened RelayServer
  import opened RelayRuns

  /** A receiver that has taken these messages has a prefix of the file, in whole chunks, and if it
      finished it has all of it. */
  ghost predicate Delivers(h: HashFn, file: seq<byte>, stream: seq<Message>) {
    var t := TakeAll(h, NOTHING, stream);
    && t.out <= file
    && Pieces(h, stream) <= Chunks(file, MAX_CHUNK)
    && (t.finished ==> t.out == file && FINAL in stream && Pieces(h, stream) == Chunks(file, MAX_CHUNK))
  }

  lemma ContentDelivers(h: HashFn, file: seq<byte>, stream: seq<Message>)
    requires stream <= Contents(h, file)
    ensures Delivers(h, file, stream)
  {
    StreamToFile(h, [], file, MAX_CHUNK, stream);
    assert [] + file == file;
    PiecesMore(h, stream, Contents(h, file));
    WholePieces(h, file, MAX_CHUNK);
    if TakeAll(h, NOTHING, stream).finished {
      assert stream[|stream| - 1] == FINAL;
    }
  }

  lemma AbortAfter(h: HashFn, file: seq<byte>, front: seq<Message>, last: Message, stream: seq<Message>)
    requires Delivers(h, file, front) && stream == front + [last] && last.id == ABORT
    ensures Delivers(h, file, stream)
  {
    TakeNext(h, front, last);
    PiecesNext(h, front, last);
    OnlyChunksAdd(h, TakeAll(h, NOTHING, front), last);
    assert Pieces(h, front) + [] == Pieces(h, front);
  }

  /** What a receiver makes of a prefix of a sender's content, possibly cut off by an Abort. */
  lemma StreamDelivers(h: HashFn, file: seq<byte>, stream: seq<Message>)
    requires Body(stream) <= Contents(h, file)
    ensures Delivers(h, file, stream)
  {
    ContentDelivers(h, file, Body(stream));
    if Body(stream) != stream {
      LastApart(stream);
      AbortAfter(h, file, Body(stream), stream[|stream| - 1], stream);
    }
  }

  lemma PiecesOfNext(h: HashFn, front: seq<Message>, m: Message, ms: seq<Message>)
    requires ms == front + [m] && Pieces(h, front) == Pieces(h, StreamOf(front))
    ensures Pieces(h, ms) == Pieces(h, StreamOf(ms))
  {
    StreamNext(front, m);
    PiecesNext(h, front, m);
    TakeStream(h, front);
    if IsStream(m) {
      PiecesNext(h, StreamOf(front), m);
    } else {
      OnlyChunksAdd(h, TakeAll(h, NOTHING, front), m);
      assert StreamOf(front) + [] == StreamOf(front) && Pieces(h, front) + [] == Pieces(h, front);
    }
  }

  /** Only transfer messages add to the output. */
  lemma {:induction false} PiecesOfStream(h: HashFn, ms: seq<Message>)
    ensures Pieces(h, ms) == Pieces(h, StreamOf(ms))
  {
    if ms != [] {
      LastApart(ms);
      PiecesOfStream(h, ms[..|ms| - 1]);
      PiecesOfNext(h, ms[..|ms| - 1], ms[|ms| - 1], ms);
    }
  }

  /** The sender's part of the stream of a claim. */
  lemma FlowIsContent(h: HashFn, linked: bool, sp: Peer, down: seq<Message>, open: bool)
    requires ClientInv(h, sp) && sp.role.Sender? && Flow(linked, sp.up, sp.upDone, down, open)
    ensures Body(StreamOf(down)) <= Contents(h, sp.role.file)
  {
    SenderUpIsScript(h, sp.role, sp.up, sp.clientOpen);
    var script := Script(h, sp.role.pre, sp.role.file);
    assert script[1..] == Contents(h, sp.role.file);
    assert sp.up[1..sp.upDone] <= script[1..];
  }

  lemma TakenPrefix(h: HashFn, file: seq<byte>, down: seq<Message>, n: nat)
    requires n <= |down| && Body(StreamOf(down)) <= Contents(h, file)
    ensures var t := TakeAll(h, NOTHING, down[..n]);
            && t.out <= file && |Pieces(h, down[..n])| <= |Chunks(file, MAX_CHUNK)|
            && (t.finished ==> t.out == file && |Pieces(h, down[..n])| == |Chunks(file, MAX_CHUNK)|)
  {
    StreamOfPrefix(down, n);
    TakeStream(h, down[..n]);
    PiecesOfStream(h, down[..n]);
    BodyPrefix(StreamOf(down[..n]), StreamOf(down), Contents(h, file), h, file);
    StreamDelivers(h, file, StreamOf(down[..n]));
  }

  lemma BodyPrefix(a: seq<Message>, b: seq<Message>, content: seq<Message>, h: HashFn, file: seq<byte>)
    requires a <= b && Body(b) <= content && content == Contents(h, file)
    ensures Body(a) <= content
  {
    if |a| < |b| {
      assert a <= b[..|b| - 1];
      assert a <= content;
    }
  }

  /** In every reachable state, with channels closing at any point, disks failing at any write and
      any other clients about: the bytes on a receiver's disk are a prefix of the file of the sender
      it claimed, under the same code; and once its loop ends well they are the whole file exactly
      when its disk takes as many writes as the file has chunks. */
  lemma ReceiverHoldsPrefix(h: HashFn, w: World, s: Conn, r: Conn)
    requires Reachable(h, w) && s in w.peers && r in w.peers
    requires w.peers[s].role.Sender? && w.peers[r].role.Receiver?
    requires r in w.claims && w.claims[r] == s
    ensures var sender, receiver := w.peers[s].role, w.peers[r].role;
            && receiver.code == sender.pre.phrase
            && receiver.recv.out <= sender.file
            && (receiver.rpc == Finished || receiver.rpc == Confirmed ==>
                  && (receiver.recv.out == sender.file <==> |Chunks(sender.file, MAX_CHUNK)| <= receiver.disk)
                  && (receiver.recv.out == sender.file ==> receiver.recv.finished))
  {
    ReachableInv(h, w);
    var sp, rp := w.peers[s], w.peers[r];
    assert FlowInv(w, r, rp) && ClientInv(h, sp) && ClientInv(h, rp);
    FlowIsContent(h, Linked(w.store, s, r), sp, rp.down, rp.serverOpen);
    TakenPrefix(h, sp.role.file, rp.down, rp.downDone);
    HeldOrBroken(h, sp.role.file, rp.role, rp.down, rp.downDone);
  }

  lemma HeldOrBroken(h: HashFn, file: seq<byte>, role: Role, down: seq<Message>, n: nat)
    requires role.Receiver? && n <= |down| && ReceiverTook(h, role, down, n)
    requires var t := TakeAll(h, NOTHING, down[..n]);
             && t.out <= file && |Pieces(h, down[..n])| <= |Chunks(file, MAX_CHUNK)|
             && (t.finished ==> t.out == file && |Pieces(h, down[..n])| == |Chunks(file, MAX_CHUNK)|)
    ensures role.recv.out <= file
    ensures role.rpc == Finished || role.rpc == Confirmed ==>
              && (role.recv.out == file <==> |Chunks(file, MAX_CHUNK)| <= role.disk)
              && (role.recv.out == file ==> role.recv.finished)
  {
  }

  /** A receiver whose claim reached no sender has written nothing. */
  lemma UnclaimedWritesNothing(h: HashFn, w: World, r: Conn)
    requires Reachable(h, w) && r in w.peers && w.peers[r].role.Receiver? && r !in w.claims
    ensures w.peers[r].role.recv.out == []
  {
    ReachableInv(h, w);
    var p := w.peers[r];
    assert ServerInv(w, r, p) && ClientInv(h, p);
    StreamOfPrefix(p.down, p.downDone);
    TakeStream(h, p.down[..p.downDone]);
    var taken := StreamOf(p.down[..p.downDone]);
    assert taken == [] || (taken == [Control(ABORT)] && taken[1..] == []);
  }

  /** The end-to-end theorem. If sendRoutine returned true, the sender was confirmed by a
      connection r. If r follows the receiver program, r's claim reached this sender with this
      sender's code, r went through to its end, and its disk holds a prefix of the file: the whole
      file, after FinalChunk, exactly when the disk takes as many writes as the file has chunks.
      Any number of other clients may send anything that the server can decode. */
  lemma ConfirmedMeansDelivered(h: HashFn, w: World, s: Conn)
    requires Reachable(h, w) && s in w.peers
    requires w.peers[s].role.Sender? && w.peers[s].role.pc == Returned(true)
    ensures s in w.confirmed && w.confirmed[s] in w.peers
    ensures var r := w.confirmed[s]; var sender, receiver := w.peers[s].role, w.peers[r].role;
            receiver.Receiver? ==>
              && r in w.claims && w.claims[r] == s
              && receiver.rpc == Confirmed
              && receiver.code == sender.pre.phrase
              && receiver.recv.out <= sender.file
              && (receiver.recv.out == sender.file <==> |Chunks(sender.file, MAX_CHUNK)| <= receiver.disk)
              && (receiver.recv.out == sender.file ==> receiver.recv.finished)
  {
    ReachableInv(h, w);
    assert ServerInv(w, s, w.peers[s]) && ConfirmInv(w, s);
    var r := w.confirmed[s];
    if w.peers[r].role.Receiver? {
      ReceiverHoldsPrefix(h, w, s, r);
    }
  }

  /** A sender is never sent anything but Accepts with the server's chunk size and Successes, so
      it never sees an Abort, never goes on without an Accept, and cuts its file as announced. Only
      the closing of its connection makes it fail, and what it sent is always the start of its
      script. */
  lemma SenderNeverMisled(h: HashFn, w: World, s: Conn)
    requires Reachable(h, w) && s in w.peers && w.peers[s].role.Sender?
    ensures forall m :: m in w.peers[s].down ==>
              m.id == SUCCESS || (m.id == ACCEPT && AnnouncesLimit(m))
    ensures w.peers[s].role.pc != Skipping
    ensures w.peers[s].role.pc == Sending ==> w.peers[s].role.size == MAX_CHUNK
    ensures w.peers[s].up <= Script(h, w.peers[s].role.pre, w.peers[s].role.file)
    ensures w.peers[s].role.pc == Finishing(false) || w.peers[s].role.pc == Returned(false) ==> !w.peers[s].clientOpen
  {
    ReachableInv(h, w);
    var p := w.peers[s];
    assert ClientInv(h, p);
    SenderUpIsScript(h, p.role, p.up, p.clientOpen);
    forall m | m in p.down
      ensures m.id == SUCCESS || (m.id == ACCEPT && AnnouncesLimit(m))
    {
      assert m.id == ACCEPT ==> AnnouncesLimit(m);
    }
  }

  /** Nothing is read out of bounds, given that rogues send only what the server can decode (Fit):
      the server can decode the next message of every connection, and every client can take a
      digest from every chunk it was sent, whoever sent the chunk. */
  lemma NothingMalformed(h: HashFn, w: World, c: Conn)
    requires Reachable(h, w) && c in w.peers
    ensures w.peers[c].upDone < |w.peers[c].up| ==> Enabled(w, ServerHandles(c))
    ensures forall m :: m in w.peers[c].down && m.id == CHUNK ==> DecodeChunk(m.body).Popped?
  {
    ReachableInv(h, w);
    assert ClientInv(h, w.peers[c]);
    if w.peers[c].upDone < |w.peers[c].up| {
      assert w.peers[c].up[w.peers[c].upDone] in w.peers[c].up;
    }
    forall m | m in w.peers[c].down && m.id == CHUNK ensures DecodeChunk(m.body).Popped? {
      assert Sound(m);
    }
  }
}
