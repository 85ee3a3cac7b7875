/** Runs of the relay that go through: every file can be confirmed, on every disk, and it is
    delivered exactly if the disk takes all of it. */
module Transfers {
  import opened Bytes
  import opened NetMessage
  import opened Codec
  import opened Server
  import opened ServerProofs
  import opened Sessions
  import opened Relay
  import opened RelayInvariant
  import opened RelayRuns
  import opened EndToEnd

  // The sender is connection 0 and the receiver connection 1.

  lemma StepReaches(h: HashFn, w: World, a: Action) returns (w': World)
    requires Reachable(h, w) && Enabled(w, a)
    ensures w' == Apply(h, w, a) && Reachable(h, w')
  {
    w' := Apply(h, w, a);
    var run, actions :| IsRun(h, run, actions) && run[|actions|] == w;
    var run', actions' := run + [w'], actions + [a];
    forall i | 0 <= i < |actions'|
      ensures Enabled(run'[i], actions'[i]) && run'[i + 1] == Apply(h, run'[i], actions'[i])
    {
      if i < |actions| {
        assert run'[i] == run[i] && run'[i + 1] == run[i + 1];
      }
    }
    assert IsRun(h, run', actions') && run'[|actions'|] == w';
  }

  lemma EmptyReaches(h: HashFn)
    ensures Reachable(h, EMPTY_WORLD)
  {
    assert IsRun(h, [EMPTY_WORLD], []) && [EMPTY_WORLD][0] == EMPTY_WORLD;
  }

  /** Both ends of both connections are open. */
  ghost predicate Up(w: World) {
    && 0 in w.peers && 1 in w.peers
    && w.peers[0].clientOpen && w.peers[0].serverOpen && w.peers[1].clientOpen && w.peers[1].serverOpen
  }

  /** Everything sent on a connection has been handled and taken. */
  predicate Settled(p: Peer) {
    p.upDone == |p.up| && p.downDone == |p.down|
  }

  /** One message is waiting for the server. */
  predicate Asking(p: Peer, m: Message) {
    p.upDone == |p.up| - 1 && p.upDone < |p.up| && p.up[p.upDone] == m && p.downDone == |p.down|
  }

  /** One message is waiting for the client. */
  predicate Told(p: Peer, m: Message) {
    p.upDone == |p.up| && p.downDone == |p.down| - 1 && p.downDone < |p.down| && p.down[p.downDone] == m
  }

  ghost predicate Roles(w: World, sender: Role, receiver: Role) {
    Up(w) && w.peers[0].role == sender && w.peers[1].role == receiver
  }

  lemma ClientTurn(h: HashFn, w: World, a: Action) returns (w': World)
    requires Reachable(h, w) && Enabled(w, a) && Up(w) && (a.c == 0 || a.c == 1)
    requires !a.Join? && !a.ServerHandles? && !a.ServerForgets? && !a.ClientCloses? && !a.ServerCloses?
    ensures Reachable(h, w') && Up(w') && w'.store == w.store && w'.claims == w.claims
    ensures w'.peers[a.c] == ClientStep(h, w.peers[a.c], a) && w'.peers[1 - a.c] == w.peers[1 - a.c]
  {
    w' := StepReaches(h, w, a);
  }

  /** The server handles the waiting message of c, with a known outcome. */
  lemma ServerTurn(h: HashFn, w: World, c: Conn, m: Message, o: Outcome) returns (w': World)
    requires Reachable(h, w) && Up(w) && (c == 0 || c == 1)
    requires Asking(w.peers[c], m) && Settled(w.peers[1 - c]) && Decodable(m)
    requires o == Handle(w.store, OpenSet(w.peers), c, m)
    ensures Reachable(h, w') && Roles(w', w.peers[0].role, w.peers[1].role) && w'.store == o.store
    ensures w'.claims == NextClaims(w.store, w.claims, c, m)
    ensures forall x: Conn :: x == 0 || x == 1 ==>
              if SentTo(o.posts, x) then Told(w'.peers[x], o.posts[0].msg) else Settled(w'.peers[x])
  {
    w' := StepReaches(h, w, ServerHandles(c));
    TurnTells(w, c, m, o);
  }

  lemma TurnTells(w: World, c: Conn, m: Message, o: Outcome)
    requires Decodable(m) && Up(w) && (c == 0 || c == 1) && Asking(w.peers[c], m) && Settled(w.peers[1 - c])
    ensures var w' := Next(w, c, o, NextClaims(w.store, w.claims, c, m));
            && Roles(w', w.peers[0].role, w.peers[1].role)
            && forall x: Conn :: x == 0 || x == 1 ==>
                 if SentTo(o.posts, x) then Told(w'.peers[x], o.posts[0].msg) else Settled(w'.peers[x])
  {
  }

  /** The open connections include both. */
  lemma BothOpen(w: World)
    requires Up(w)
    ensures 0 in OpenSet(w.peers) && 1 in OpenSet(w.peers)
  {
  }

  // ---------- setting up ----------

  /** The storage with one pending sender. */
  ghost predicate Offered(st: Store, pre: PreMetadata) {
    && st.phrases == Bimap(map[0 := pre.phrase.code], map[pre.phrase.code := 0])
    && 0 in st.contexts && 1 !in st.contexts && WellFormed(st.contexts[0])
  }

  ghost predicate Waits(st: Store, pre: PreMetadata) {
    Offered(st, pre) && st.sessions == map[] && st.pairs == EMPTY_STORE.pairs
  }

  ghost predicate Serves(st: Store, pre: PreMetadata) {
    Offered(st, pre) && st.sessions == map[0 := 1] && st.pairs == Bimap(map[0 := 1], map[1 := 0])
  }

  lemma Joined(h: HashFn, sender: Role, receiver: Role) returns (w: World)
    requires Initial(sender) && Initial(receiver)
    ensures Reachable(h, w) && Roles(w, sender, receiver) && w.store == EMPTY_STORE
    ensures Settled(w.peers[0]) && Settled(w.peers[1])
  {
    EmptyReaches(h);
    w := StepReaches(h, EMPTY_WORLD, Join(0, sender));
    w := StepReaches(h, w, Join(1, receiver));
  }

  lemma MetadataStored(pre: PreMetadata, open: set<Conn>) returns (o: Outcome)
    requires pre.Sized()
    ensures Fit(SendMessage(pre)) && o == Handle(EMPTY_STORE, open, 0, SendMessage(pre))
    ensures o.posts == [] && Waits(o.store, pre)
  {
    o := Handle(EMPTY_STORE, open, 0, SendMessage(pre));
    MetadataFit(pre);
    var empty: map<Conn, seq<byte>> := map[];
    assert empty[0 := pre.phrase.code] == map[0 := pre.phrase.code];
  }

  /** Both clients join, and the sender registers its phrase. */
  lemma Registered(h: HashFn, sender: Role, receiver: Role) returns (w: World)
    requires sender.Sender? && Initial(sender) && Initial(receiver)
    ensures Reachable(h, w) && Roles(w, sender.(pc := Waiting), receiver) && Waits(w.store, sender.pre)
    ensures Settled(w.peers[0]) && Settled(w.peers[1])
  {
    var w1 := Joined(h, sender, receiver);
    var w2 := ClientTurn(h, w1, SenderSends(0));
    var o := MetadataStored(sender.pre, OpenSet(w2.peers));
    w := Unanswered(h, w2, SendMessage(sender.pre), o);
  }

  /** A message that the server answers with nothing. */
  lemma Unanswered(h: HashFn, w0: World, m: Message, o: Outcome) returns (w: World)
    requires Reachable(h, w0) && Up(w0) && Asking(w0.peers[0], m) && Settled(w0.peers[1]) && Decodable(m)
    requires o == Handle(w0.store, OpenSet(w0.peers), 0, m) && o.posts == []
    ensures Reachable(h, w) && Roles(w, w0.peers[0].role, w0.peers[1].role) && w.store == o.store
    ensures Settled(w.peers[0]) && Settled(w.peers[1])
  {
    w := ServerTurn(h, w0, 0, m, o);
  }

  lemma RequestAnswered(st: Store, open: set<Conn>, pre: PreMetadata, m: Message, junkSize: uint64, junkNameSize: byte)
    requires Waits(st, pre) && pre.phrase.Sized() && 1 in open
    requires m == RequestMessage(pre.phrase, junkSize, junkNameSize)
    ensures Fit(m)
    ensures var o := Handle(st, open, 1, m);
            o.store == st && o.posts == [Post(1, AcceptMessage(st.contexts[0].post))]
  {
    RequestKeepsCode(0, pre.phrase, junkSize, junkNameSize);
    RequestFit(pre.phrase, junkSize, junkNameSize);
  }

  /** The receiver asks for the code and is told of the file. */
  lemma Asked(h: HashFn, w0: World, sender: Role, receiver: Role) returns (w: World)
    requires Reachable(h, w0) && Roles(w0, sender, receiver) && sender.Sender? && Waits(w0.store, sender.pre)
    requires Settled(w0.peers[0]) && Settled(w0.peers[1])
    requires receiver.Receiver? && receiver.rpc == Begin && receiver.code == sender.pre.phrase && receiver.code.Sized()
    ensures Reachable(h, w) && Roles(w, sender, receiver.(rpc := Prompting)) && Waits(w.store, sender.pre)
    ensures Settled(w.peers[0]) && Settled(w.peers[1])
  {
    var w1 := ClientTurn(h, w0, ReceiverAsks(1));
    BothOpen(w1);
    var m := RequestMessage(receiver.code, receiver.junkSize, receiver.junkNameSize);
    RequestAnswered(w1.store, OpenSet(w1.peers), sender.pre, m, receiver.junkSize, receiver.junkNameSize);
    var w2 := ServerTurn(h, w1, 1, m, Handle(w1.store, OpenSet(w1.peers), 1, m));
    w := ClientTurn(h, w2, Pops(1, 0));
  }

  lemma ClaimAnswered(st: Store, open: set<Conn>, pre: PreMetadata)
    requires Waits(st, pre) && pre.phrase.Sized() && 0 in open
    ensures Fit(ClaimMessage(pre.phrase))
    ensures var o := Handle(st, open, 1, ClaimMessage(pre.phrase));
            Serves(o.store, pre) && o.posts == [Post(0, AcceptMessage(st.contexts[0].post))]
  {
    ClaimFit(pre.phrase);
    var empty: map<Conn, Conn> := map[];
    assert empty[0 := 1] == map[0 := 1] && empty[1 := 0] == map[1 := 0];
  }

  /** The receiver's claim reached the sender. */
  ghost predicate ClaimMade(w: World) {
    1 in w.claims && w.claims[1] == 0
  }

  /** The receiver claims the code; the sender is accepted and learns the chunk size. */
  lemma Claimed(h: HashFn, w0: World, sender: Role, receiver: Role) returns (w: World)
    requires Reachable(h, w0) && Roles(w0, sender, receiver) && sender.Sender? && Waits(w0.store, sender.pre)
    requires Settled(w0.peers[0]) && Settled(w0.peers[1]) && sender.pc == Waiting
    requires receiver.Receiver? && receiver.rpc == Prompting
    requires receiver.code == sender.pre.phrase && receiver.code.Sized()
    ensures Reachable(h, w) && Serves(w.store, sender.pre) && ClaimMade(w)
    ensures Roles(w, sender.(pc := Sending, size := MAX_CHUNK), receiver.(rpc := Looping))
    ensures Settled(w.peers[0]) && Settled(w.peers[1])
  {
    var w1, context := ClaimSent(h, w0, sender, receiver);
    w := Opened(h, w1, context, sender, receiver.(rpc := Opening));
  }

  /** The receiver claims the code; the sender is accepted. */
  lemma ClaimSent(h: HashFn, w0: World, sender: Role, receiver: Role) returns (w: World, context: Context)
    requires Reachable(h, w0) && Roles(w0, sender, receiver) && sender.Sender? && Waits(w0.store, sender.pre)
    requires Settled(w0.peers[0]) && Settled(w0.peers[1])
    requires receiver.Receiver? && receiver.rpc == Prompting
    requires receiver.code == sender.pre.phrase && receiver.code.Sized()
    ensures Reachable(h, w) && Serves(w.store, sender.pre) && ClaimMade(w)
    ensures Roles(w, sender, receiver.(rpc := Opening))
    ensures WellFormed(context) && Told(w.peers[0], AcceptMessage(context.post)) && Settled(w.peers[1])
  {
    var w1 := ClientTurn(h, w0, ReceiverAnswers(1, true));
    BothOpen(w1);
    ClaimAnswered(w1.store, OpenSet(w1.peers), sender.pre);
    w := ClaimHandled(h, w1, sender.pre);
    context := w1.store.contexts[0];
  }

  lemma ClaimRecorded(st: Store, claims: map<Conn, Conn>, pre: PreMetadata)
    requires Waits(st, pre) && pre.phrase.Sized() && Decodable(ClaimMessage(pre.phrase))
    ensures var next := NextClaims(st, claims, 1, ClaimMessage(pre.phrase)); 1 in next && next[1] == 0
  {
    PhraseRoundTrip([], pre.phrase);
    assert [] + EncodePhrase(pre.phrase) == EncodePhrase(pre.phrase);
  }

  lemma ClaimHandled(h: HashFn, w0: World, pre: PreMetadata) returns (w: World)
    requires Reachable(h, w0) && Up(w0) && Waits(w0.store, pre) && pre.phrase.Sized()
    requires Asking(w0.peers[1], ClaimMessage(pre.phrase)) && Settled(w0.peers[0])
    ensures Reachable(h, w) && Roles(w, w0.peers[0].role, w0.peers[1].role) && Serves(w.store, pre)
    ensures Told(w.peers[0], AcceptMessage(w0.store.contexts[0].post)) && Settled(w.peers[1])
    ensures ClaimMade(w)
  {
    var open := OpenSet(w0.peers);
    BothOpen(w0);
    ClaimAnswered(w0.store, open, pre);
    ClaimRecorded(w0.store, w0.claims, pre);
    w := ServerTurn(h, w0, 1, ClaimMessage(pre.phrase), Handle(w0.store, open, 1, ClaimMessage(pre.phrase)));
  }

  /** The receiver opens its output, and the sender reads the Accept. */
  lemma Opened(h: HashFn, w0: World, context: Context, sender: Role, receiver: Role) returns (w: World)
    requires sender.Sender? && sender.pc == Waiting && receiver.Receiver? && receiver.rpc == Opening
    requires Reachable(h, w0) && Roles(w0, sender, receiver) && Serves(w0.store, sender.pre) && ClaimMade(w0)
    requires WellFormed(context) && Told(w0.peers[0], AcceptMessage(context.post)) && Settled(w0.peers[1])
    ensures Reachable(h, w) && Serves(w.store, sender.pre) && ClaimMade(w)
    ensures Roles(w, sender.(pc := Sending, size := MAX_CHUNK), receiver.(rpc := Looping))
    ensures Settled(w.peers[0]) && Settled(w.peers[1])
  {
    var w1 := ClientTurn(h, w0, ReceiverOpens(1, true));
    AcceptRead(context);
    w := ClientTurn(h, w1, Pops(0, 0));
  }

  lemma AcceptRead(context: Context)
    requires WellFormed(context)
    ensures DecodePost(AcceptMessage(context.post).body) == Popped(context.post, [])
    ensures context.post.maxChunk == MAX_CHUNK
  {
    PostRoundTrip([], context.post);
    assert [] + EncodePost(context.post) == EncodePost(context.post);
  }

  // ---------- transferring ----------

  /** In its loop, with some of the file on its disk. */
  predicate Receiving(role: Role, receiver: Role)
    requires receiver.Receiver?
  {
    && role.Receiver? && !role.recv.finished && !role.recv.failed
    && role == receiver.(rpc := Looping, recv := role.recv, writes := role.writes)
  }

  /** The sender has the rest of its file to send. */
  ghost predicate Transferring(h: HashFn, w: World, sender: Role, receiver: Role, rest: seq<byte>, pc: SenderPc) {
    && sender.Sender? && receiver.Receiver?
    && Reachable(h, w) && Serves(w.store, sender.pre) && ClaimMade(w)
    && Up(w) && w.peers[0].role == sender.(pc := pc, size := MAX_CHUNK, rest := rest)
    && Receiving(w.peers[1].role, receiver)
    && Settled(w.peers[0]) && Settled(w.peers[1])
  }

  lemma ContentRelayed(st: Store, open: set<Conn>, pre: PreMetadata, m: Message)
    requires Serves(st, pre) && 1 in open
    requires m.id == FINAL_CHUNK || (m.id == CHUNK && !Oversized(m))
    ensures Handle(st, open, 0, m) == Outcome(st, [Post(1, m)], [])
  {
  }

  lemma OneChunkPasses(h: HashFn, data: seq<byte>)
    requires |data| <= MAX_CHUNK
    ensures !Oversized(ChunkMessage(h, data))
  {
    FilterExact(ChunkMessage(h, data));
  }

  /** One chunk is read, sent and relayed. */
  lemma ChunkRelayed(h: HashFn, w0: World, sender: Role, receiver: Role, rest: seq<byte>) returns (w: World)
    requires Transferring(h, w0, sender, receiver, rest, Sending) && rest != []
    ensures Reachable(h, w) && Serves(w.store, sender.pre) && ClaimMade(w) && Up(w)
    ensures var n := ReadCount(rest, MAX_CHUNK);
            && w.peers[0].role == sender.(pc := if n < MAX_CHUNK then Finishing(true) else Sending,
                                          size := MAX_CHUNK, rest := rest[n..])
            && Settled(w.peers[0]) && Told(w.peers[1], ChunkMessage(h, rest[..n]))
    ensures Receiving(w.peers[1].role, receiver)
  {
    var n := ReadCount(rest, MAX_CHUNK);
    var chunk := ChunkMessage(h, rest[..n]);
    var w1 := ClientTurn(h, w0, SenderReads(0));
    BothOpen(w1);
    OneChunkPasses(h, rest[..n]);
    ContentRelayed(w1.store, OpenSet(w1.peers), sender.pre, chunk);
    w := ServerTurn(h, w1, 0, chunk, Outcome(w1.store, [Post(1, chunk)], []));
  }

  /** Whatever the disk does with it, a chunk leaves the receiver in its loop. */
  lemma StillReceiving(h: HashFn, role: Role, receiver: Role, data: seq<byte>)
    requires receiver.Receiver? && Receiving(role, receiver)
    ensures Receiving(ReceiverPops(h, role, ChunkMessage(h, data), 0), receiver)
  {
    TakeChunk(h, role.recv.out, data);
  }

  /** One chunk is delivered and taken. */
  lemma ChunkTaken(h: HashFn, w0: World, sender: Role, receiver: Role, rest: seq<byte>) returns (w: World)
    requires Transferring(h, w0, sender, receiver, rest, Sending) && rest != []
    ensures var n := ReadCount(rest, MAX_CHUNK);
            Transferring(h, w, sender, receiver, rest[n..], if n < MAX_CHUNK then Finishing(true) else Sending)
  {
    var n := ReadCount(rest, MAX_CHUNK);
    var w1 := ChunkRelayed(h, w0, sender, receiver, rest);
    StillReceiving(h, w1.peers[1].role, receiver, rest[..n]);
    w := ClientTurn(h, w1, Pops(1, 0));
  }

  /** The loop ends when nothing is left. */
  lemma LoopEnds(h: HashFn, w0: World, sender: Role, receiver: Role) returns (w: World)
    requires Transferring(h, w0, sender, receiver, [], Sending)
    ensures Transferring(h, w, sender, receiver, [], Finishing(true))
  {
    w := ClientTurn(h, w0, SenderReads(0));
  }

  /** All the rest of the file goes through. */
  lemma {:induction false} RestTaken(h: HashFn, w0: World, sender: Role, receiver: Role, rest: seq<byte>)
    returns (w: World)
    requires Transferring(h, w0, sender, receiver, rest, Sending)
    ensures Transferring(h, w, sender, receiver, [], Finishing(true))
    decreases |rest|
  {
    if rest == [] {
      w := LoopEnds(h, w0, sender, receiver);
    } else {
      var n := ReadCount(rest, MAX_CHUNK);
      w := ChunkTaken(h, w0, sender, receiver, rest);
      if n == MAX_CHUNK {
        w := RestTaken(h, w, sender, receiver, rest[n..]);
      } else {
        assert rest[n..] == [];
      }
    }
  }

  // ---------- finishing ----------

  /** The last message of the sender is relayed and taken. */
  lemma FinalTaken(h: HashFn, w0: World, sender: Role, receiver: Role) returns (w: World)
    requires Transferring(h, w0, sender, receiver, [], Finishing(true))
    ensures Reachable(h, w) && Serves(w.store, sender.pre) && ClaimMade(w)
    ensures Up(w) && w.peers[0].role == sender.(pc := Confirming, size := MAX_CHUNK, rest := [])
    ensures var role := w.peers[1].role;
            role.Receiver? && role == receiver.(rpc := Finished, recv := role.recv, writes := role.writes)
    ensures Settled(w.peers[0]) && Settled(w.peers[1])
  {
    var w1 := ClientTurn(h, w0, SenderEnds(0));
    BothOpen(w1);
    ContentRelayed(w1.store, OpenSet(w1.peers), sender.pre, FINAL);
    var w2 := ServerTurn(h, w1, 0, FINAL, Outcome(w1.store, [Post(1, FINAL)], []));
    w := ClientTurn(h, w2, Pops(1, 0));
  }

  lemma FinishAnswered(st: Store, open: set<Conn>, pre: PreMetadata)
    requires Serves(st, pre) && 0 in open
    ensures Handle(st, open, 1, Control(FINISH_RECEIVE)) == Outcome(st.Drop(0), [Post(0, Control(SUCCESS))], [0])
  {
  }

  /** The receiver confirms and the sender returns. */
  lemma Confirmation(h: HashFn, w0: World, sender: Role, receiver: Role) returns (w: World)
    requires Reachable(h, w0) && Roles(w0, sender, receiver) && sender.Sender? && receiver.Receiver? && ClaimMade(w0)
    requires Serves(w0.store, sender.pre) && sender.pc == Confirming && receiver.rpc == Finished
    requires Settled(w0.peers[0]) && Settled(w0.peers[1])
    ensures Reachable(h, w) && Roles(w, sender.(pc := Returned(true)), receiver.(rpc := Confirmed)) && ClaimMade(w)
  {
    var w1 := ClientTurn(h, w0, ReceiverConfirms(1));
    var w2 := FinishHandled(h, w1, sender.pre);
    w := ClientTurn(h, w2, Pops(0, 0));
  }

  lemma FinishHandled(h: HashFn, w0: World, pre: PreMetadata) returns (w: World)
    requires Reachable(h, w0) && Up(w0) && Serves(w0.store, pre) && ClaimMade(w0)
    requires Asking(w0.peers[1], Control(FINISH_RECEIVE)) && Settled(w0.peers[0])
    ensures Reachable(h, w) && Roles(w, w0.peers[0].role, w0.peers[1].role) && ClaimMade(w)
    ensures Told(w.peers[0], Control(SUCCESS)) && Settled(w.peers[1])
  {
    BothOpen(w0);
    FinishAnswered(w0.store, OpenSet(w0.peers), pre);
    w := ServerTurn(h, w0, 1, Control(FINISH_RECEIVE),
                    Outcome(w0.store.Drop(0), [Post(0, Control(SUCCESS))], [0]));
  }

  // ---------- whole runs ----------

  function NewSender(file: seq<byte>, pre: PreMetadata): Role {
    Sender(file, pre, 0, file, Start)
  }

  function NewReceiver(code: CodePhrase, disk: nat): Role {
    Receiver(code, 0, 0, disk, Begin, NOTHING, 0)
  }

  lemma SetUp(h: HashFn, file: seq<byte>, pre: PreMetadata, disk: nat) returns (w: World)
    requires pre.Sized() && pre.file.fileSize == |file|
    ensures Transferring(h, w, NewSender(file, pre), NewReceiver(pre.phrase, disk), file, Sending)
  {
    var sender, receiver := NewSender(file, pre), NewReceiver(pre.phrase, disk);
    var w1 := Registered(h, sender, receiver);
    var w2 := Asked(h, w1, sender.(pc := Waiting), receiver);
    w := Claimed(h, w2, sender.(pc := Waiting), receiver.(rpc := Prompting));
  }

  /** A whole run between a sender of the file and a receiver with the given disk. */
  ghost predicate Confirms(w: World, file: seq<byte>, disk: nat) {
    && Up(w)
    && w.peers[0].role.Sender? && w.peers[0].role.file == file && w.peers[0].role.pc == Returned(true)
    && w.peers[1].role.Receiver? && w.peers[1].role.disk == disk && w.peers[1].role.rpc == Confirmed
  }

  /** Every file, under every phrase and hash and on every disk, has a run that confirms it; it is
      then on the disk exactly if the disk takes as many writes as the file has chunks. */
  lemma EveryFileCanBeConfirmed(h: HashFn, file: seq<byte>, pre: PreMetadata, disk: nat) returns (w: World)
    requires pre.Sized() && pre.file.fileSize == |file|
    ensures Reachable(h, w) && Confirms(w, file, disk)
    ensures w.peers[1].role.recv.out == file <==> |Chunks(file, MAX_CHUNK)| <= disk
  {
    var sender, receiver := NewSender(file, pre), NewReceiver(pre.phrase, disk);
    var w1 := SetUp(h, file, pre, disk);
    var w2 := RestTaken(h, w1, sender, receiver, file);
    var w3 := FinalTaken(h, w2, sender, receiver);
    w := Confirmation(h, w3, w3.peers[0].role, w3.peers[1].role);
    ReceiverHoldsPrefix(h, w, 0, 1);
  }

  /** With a disk that is large enough the file is delivered. */
  lemma EveryFileCanBeDelivered(h: HashFn, file: seq<byte>, pre: PreMetadata, disk: nat) returns (w: World)
    requires pre.Sized() && pre.file.fileSize == |file| && |Chunks(file, MAX_CHUNK)| <= disk
    ensures Reachable(h, w) && Confirms(w, file, disk) && w.peers[1].role.recv.out == file
  {
    w := EveryFileCanBeConfirmed(h, file, pre, disk);
  }

  /** With any smaller disk the promise fails: the receiving loop returns true when its stream goes
      bad, so a sender is told of a success although part of its file is lost. */
  lemma BrokenDiskIsConfirmed(h: HashFn, file: seq<byte>, pre: PreMetadata, disk: nat) returns (w: World)
    requires pre.Sized() && pre.file.fileSize == |file| && disk < |Chunks(file, MAX_CHUNK)|
    ensures Reachable(h, w) && Confirms(w, file, disk) && w.peers[1].role.recv.out != file
  {
    w := EveryFileCanBeConfirmed(h, file, pre, disk);
  }
}
