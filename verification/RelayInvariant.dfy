/** What every reachable state of the relay satisfies, and why the steps of clients keep it. */
module RelayInvariant {
  import opened Bytes
  import opened NetMessage
  import opened Codec
  import opened Server
  import opened ServerProofs
  import opened Sessions
  import opened Disks
  import opened Relay

  // ---------- transfer messages ----------

  function StreamOf(ms: seq<Message>): seq<Message> {
    if ms == [] then []
    else StreamOf(ms[..|ms| - 1]) + (if IsStream(ms[|ms| - 1]) then [ms[|ms| - 1]] else [])
  }

  lemma StreamNext(ms: seq<Message>, m: Message)
    ensures StreamOf(ms + [m]) == StreamOf(ms) + (if IsStream(m) then [m] else [])
  {
    assert (ms + [m])[..|ms|] == ms;
  }

  lemma {:induction false} StreamOfPrefix(ms: seq<Message>, k: nat)
    requires k <= |ms|
    ensures StreamOf(ms[..k]) <= StreamOf(ms)
    decreases |ms| - k
  {
    if k < |ms| {
      StreamOfPrefix(ms, k + 1);
      assert ms[..k + 1][..k] == ms[..k];
    } else {
      assert ms[..k] == ms;
    }
  }

  /** The receiving loop only reacts to transfer messages. */
  lemma {:induction false} TakeStream(h: HashFn, ms: seq<Message>)
    ensures TakeAll(h, NOTHING, ms) == TakeAll(h, NOTHING, StreamOf(ms))
  {
    if ms != [] {
      var front, m := ms[..|ms| - 1], ms[|ms| - 1];
      TakeStream(h, front);
      assert ms == front + [m];
      TakeNext(h, front, m);
      StreamNext(front, m);
      if IsStream(m) {
        TakeNext(h, StreamOf(front), m);
      } else {
        assert StreamOf(front) + [] == StreamOf(front);
      }
    }
  }

  // ---------- a sender ----------

  /** All that a sender ever sends, in order. */
  function Script(h: HashFn, pre: PreMetadata, file: seq<byte>): seq<Message> {
    [SendMessage(pre)] + Contents(h, file)
  }

  function Contents(h: HashFn, file: seq<byte>): seq<Message> {
    ChunkMessages(h, file, MAX_CHUNK) + [FINAL]
  }

  ghost predicate SenderScript(h: HashFn, role: Role, up: seq<Message>, clientOpen: bool)
    requires role.Sender?
  {
    var script := Script(h, role.pre, role.file);
    && role.pre.Sized()
    && match role.pc
       case Start => up == [] && role.rest == role.file
       case Waiting => up == [SendMessage(role.pre)] && role.rest == role.file
       case Skipping => false
       case Sending => role.size == MAX_CHUNK && up != [] && up + Contents(h, role.rest) == script
       case Finishing(ok) => if ok then up != [] && up + [FINAL] == script else up <= script && !clientOpen
       case Confirming => up <= script
       case Returned(ok) => up <= script && (!ok ==> !clientOpen)
  }

  /** The server sends a sender Accepts, with the server's chunk size, and Successes, an Accept
      first; until then the sender has sent nothing but its metadata. */
  ghost predicate SenderDown(pc: SenderPc, up: seq<Message>, down: seq<Message>, downDone: nat) {
    && (forall m :: m in down ==> m.id == ACCEPT || m.id == SUCCESS)
    && (forall m :: m in down && m.id == ACCEPT ==> AnnouncesLimit(m))
    && (down != [] ==> down[0].id == ACCEPT)
    && (down == [] ==> |up| <= 1)
    && (pc == Sending || pc.Finishing? || pc == Confirming ==> down != [])
    && (pc == Start || pc == Waiting ==> downDone == 0)
  }

  predicate AnnouncesLimit(m: Message) {
    DecodePost(m.body).Popped? && DecodePost(m.body).value.maxChunk == MAX_CHUNK
  }

  /** A sender is never a sink or a receiver. It is unknown before its metadata is handled, and
      once it has been answered it is pending only while its session stands. */
  ghost predicate SenderStore(st: Store, c: Conn, pre: PreMetadata, upDone: nat, down: seq<Message>, open: bool) {
    && NeverReceives(st, c)
    && (c in st.sessions && open ==> down != [])
    && (upDone == 0 ==> c !in st.contexts && down == [])
    && (c in st.phrases.left && down != [] ==> c in st.sessions)
    && (c in st.contexts ==> st.contexts[c].pre == pre)
  }

  ghost predicate NeverReceives(st: Store, c: Conn) {
    c !in st.pairs.right && forall s :: s in st.sessions ==> st.sessions[s] != c
  }

  ghost predicate Succeeds(pc: SenderPc, down: seq<Message>, c: Conn, confirmed: map<Conn, Conn>) {
    (pc == Returned(true) || exists m :: m in down && m.id == SUCCESS) ==> c in confirmed
  }

  // ---------- a receiver ----------

  function Request(role: Role): Message
    requires role.Receiver?
  {
    RequestMessage(role.code, role.junkSize, role.junkNameSize)
  }

  /** All of the script, or the part of it that a connection took before it closed. */
  ghost predicate SentOf(up: seq<Message>, script: seq<Message>, open: bool) {
    up <= script && (open ==> up == script)
  }

  ghost predicate ReceiverScript(role: Role, up: seq<Message>, open: bool)
    requires role.Receiver?
  {
    var asked, claimed := [Request(role)], [Request(role), ClaimMessage(role.code)];
    && role.code.Sized()
    && match role.rpc
       case Begin => up == []
       case AwaitReply => SentOf(up, asked, open)
       case Draining => SentOf(up, asked, open)
       case Prompting => SentOf(up, asked, open)
       case Declined => SentOf(up, asked, open)
       case Opening => SentOf(up, claimed, open)
       case Looping => SentOf(up, claimed, open)
       case Finished => SentOf(up, claimed, open)
       case Failed => up <= claimed + [Control(FAILED_RECEIVE)]
       case Confirmed => up <= claimed + [Control(FINISH_RECEIVE)]
  }

  /** What is on the disk is what the loop makes of the messages taken so far, or, exactly once the
      output stream broke, less. */
  predicate Kept(out: seq<byte>, whole: seq<byte>, broken: bool) {
    out <= whole && (out == whole <==> !broken)
  }

  /** Where a receiver stands is where the loop is after the messages taken so far. */
  ghost predicate ReceiverTook(h: HashFn, role: Role, down: seq<Message>, downDone: nat)
    requires role.Receiver? && downDone <= |down|
  {
    var t := TakeAll(h, NOTHING, down[..downDone]);
    && role.recv.finished == t.finished && role.recv.failed == t.failed
    && role.writes == |Pieces(h, down[..downDone])| && Kept(role.recv.out, t.out, role.Broken())
    && (!Ended(role.rpc) ==> !t.finished && !t.failed)
    && (role.rpc == Finished || role.rpc == Confirmed ==> !t.failed && (t.finished || role.Broken()))
  }

  /** The receiving loop is over, or will never run. */
  predicate Ended(rpc: ReceiverPc) {
    rpc == Finished || rpc == Confirmed || rpc == Failed || rpc == Declined
  }

  /** A receiver is a sink, and a recorded receiver, only for the sender it claimed. */
  ghost predicate ReceiverStore(st: Store, claims: map<Conn, Conn>, c: Conn, upDone: nat, down: seq<Message>) {
    && c !in st.contexts
    && (forall s :: s in st.sessions && st.sessions[s] == c ==> c in claims && claims[c] == s)
    && (c in st.pairs.right ==> c in claims && claims[c] == st.pairs.right[c])
    && (upDone <= 1 ==> c !in claims && StreamOf(down) == [])
    && (c !in claims ==> StreamOf(down) <= [Control(ABORT)])
  }

  // ---------- a transfer ----------

  /** The relayed part of what a receiver was sent: everything but a last Abort. */
  function Body(stream: seq<Message>): seq<Message> {
    if stream != [] && stream[|stream| - 1].id == ABORT then stream[..|stream| - 1] else stream
  }

  ghost predicate Linked(st: Store, s: Conn, r: Conn) {
    s in st.sessions && st.sessions[s] == r
  }

  /** A receiver that claimed a sender has been sent a prefix of what the server handled of that
      sender after its metadata, and possibly an Abort; while the session stands, no Abort, and
      all of it unless the receiver's connection closed. */
  ghost predicate Flow(linked: bool, up: seq<Message>, upDone: nat, down: seq<Message>, open: bool) {
    && 1 <= upDone <= |up|
    && Body(StreamOf(down)) <= up[1..upDone]
    && (linked ==> StreamOf(down) <= up[1..upDone] && (open ==> StreamOf(down) == up[1..upDone]))
  }

  // ---------- all together ----------

  predicate Sound(m: Message) {
    |m.body| < TWO32 && (m.id == CHUNK ==> DIGEST_LENGTH <= |m.body| <= DIGEST_LENGTH + MAX_CHUNK)
  }

  ghost predicate Channels(p: Peer) {
    && p.upDone <= |p.up| && p.downDone <= |p.down|
    && (forall m :: m in p.up ==> Fit(m))
    && (forall m :: m in p.down ==> Sound(m))
  }

  /** What only concerns the client of a connection. */
  ghost predicate ClientInv(h: HashFn, p: Peer) {
    && Channels(p)
    && match p.role
       case Sender(_, _, _, _, pc) =>
         SenderScript(h, p.role, p.up, p.clientOpen) && SenderDown(pc, p.up, p.down, p.downDone)
       case Receiver(_, _, _, _, _, _, _) =>
         ReceiverScript(p.role, p.up, p.clientOpen) && ReceiverTook(h, p.role, p.down, p.downDone)
       case Rogue => true
  }

  /** What ties a connection to the server. */
  ghost predicate ServerInv(w: World, c: Conn, p: Peer) {
    match p.role
    case Sender(_, pre, _, _, pc) =>
      SenderStore(w.store, c, pre, p.upDone, p.down, p.serverOpen) && Succeeds(pc, p.down, c, w.confirmed)
    case Receiver(_, _, _, _, _, _, _) => ReceiverStore(w.store, w.claims, c, p.upDone, p.down)
    case Rogue => true
  }

  /** A claim between the two programs: the codes agree and the transfer flows. */
  ghost predicate FlowInv(w: World, r: Conn, rp: Peer) {
    rp.role.Receiver? && r in w.claims ==>
      && w.claims[r] in w.peers
      && (var s := w.claims[r]; var sp := w.peers[s];
          sp.role.Sender? ==>
            && rp.role.code == sp.role.pre.phrase
            && Flow(Linked(w.store, s, r), sp.up, sp.upDone, rp.down, rp.serverOpen))
  }

  /** A confirmed sender was confirmed by a receiver that claimed it and went through. */
  ghost predicate ConfirmInv(w: World, s: Conn) {
    s in w.confirmed ==>
      && w.confirmed[s] in w.peers
      && (var r := w.confirmed[s];
          w.peers[r].role.Receiver? ==>
            r in w.claims && w.claims[r] == s && w.peers[r].role.rpc == Confirmed)
  }

  ghost predicate Inv(h: HashFn, w: World) {
    && Chained(w.store)
    && (forall c :: c in w.store.contexts ==> c in w.peers)
    && (forall c :: c in w.claims ==> c in w.peers)
    && (forall c :: c in w.confirmed ==> c in w.peers)
    && (forall c :: c in w.peers ==> ClientInv(h, w.peers[c]))
    && (forall c :: c in w.peers ==> ServerInv(w, c, w.peers[c]))
    && (forall c :: c in w.peers ==> FlowInv(w, c, w.peers[c]))
    && (forall c :: c in w.peers && w.peers[c].role.Sender? ==> ConfirmInv(w, c))
    && (forall s :: s in w.store.sessions ==> w.store.sessions[s] in w.peers)
    && (forall c :: c in w.store.pairs.right ==> c in w.peers)
  }

  // ---------- client steps ----------

  /** A step of the client of c: its program moves, it may send, it may take one message, and
      either end may close. */
  ghost predicate ClientMoves(p: Peer, q: Peer) {
    && p.up <= q.up && q.upDone == p.upDone && q.down == p.down
    && (q.serverOpen ==> p.serverOpen)
    && (p.role.Sender? <==> q.role.Sender?) && (p.role.Receiver? <==> q.role.Receiver?)
    && (p.role.Sender? ==> q.role.pre == p.role.pre && q.role.file == p.role.file)
    && (p.role.Receiver? ==> q.role.code == p.role.code && (p.role.rpc == Confirmed ==> q.role.rpc == Confirmed))
    && (p.role.Sender? && q.role.pc == Returned(true) ==>
          p.role.pc == Returned(true) || exists m :: m in p.down && m.id == SUCCESS)
  }

  lemma FlowExtends(linked: bool, up: seq<Message>, up': seq<Message>, upDone: nat, down: seq<Message>,
                    open: bool, open': bool)
    requires Flow(linked, up, upDone, down, open) && up <= up' && (open' ==> open)
    ensures Flow(linked, up', upDone, down, open')
  {
    assert up'[1..upDone] == up[1..upDone];
  }

  lemma MoveKeepsFlow(w: World, c: Conn, q: Peer, r: Conn)
    requires c in w.peers && r in w.peers && ClientMoves(w.peers[c], q)
    requires FlowInv(w, r, w.peers[r])
    ensures var w' := w.(peers := w.peers[c := q]); FlowInv(w', r, w'.peers[r])
  {
    var w' := w.(peers := w.peers[c := q]);
    var rp := w.peers[r];
    if rp.role.Receiver? && r in w.claims {
      var s := w.claims[r];
      var sp := w.peers[s];
      if sp.role.Sender? {
        FlowExtends(Linked(w.store, s, r), sp.up, w'.peers[s].up, sp.upDone, rp.down,
                    rp.serverOpen, w'.peers[r].serverOpen);
      }
    }
  }

  lemma MoveKeepsServerInv(w: World, c: Conn, q: Peer, x: Conn)
    requires c in w.peers && x in w.peers && ClientMoves(w.peers[c], q)
    requires ServerInv(w, x, w.peers[x])
    ensures var w' := w.(peers := w.peers[c := q]); ServerInv(w', x, w'.peers[x])
  {
  }

  lemma MoveKeepsConfirm(w: World, c: Conn, q: Peer, x: Conn)
    requires c in w.peers && ClientMoves(w.peers[c], q) && ConfirmInv(w, x)
    ensures ConfirmInv(w.(peers := w.peers[c := q]), x)
  {
  }

  lemma MoveKeepsInv(h: HashFn, w: World, c: Conn, q: Peer)
    requires Inv(h, w) && c in w.peers && ClientMoves(w.peers[c], q) && ClientInv(h, q)
    ensures Inv(h, w.(peers := w.peers[c := q]))
  {
    var w' := w.(peers := w.peers[c := q]);
    forall r | r in w'.peers ensures FlowInv(w', r, w'.peers[r]) {
      MoveKeepsFlow(w, c, q, r);
    }
    forall x | x in w'.peers ensures ServerInv(w', x, w'.peers[x]) {
      MoveKeepsServerInv(w, c, q, x);
    }
    forall x | x in w'.peers && w'.peers[x].role.Sender? ensures ConfirmInv(w', x) {
      assert ConfirmInv(w, x);
      MoveKeepsConfirm(w, c, q, x);
    }
  }

  // the messages of the programs are fit for the server

  lemma MetadataFit(pre: PreMetadata)
    requires pre.Sized()
    ensures Fit(SendMessage(pre))
    ensures DecodePre(SendMessage(pre).body) == Popped(pre, [])
  {
    PreRoundTrip([], pre);
    assert [] + EncodePre(pre) == EncodePre(pre);
  }

  lemma RequestFit(code: CodePhrase, junkSize: uint64, junkNameSize: byte)
    requires code.Sized()
    ensures Fit(RequestMessage(code, junkSize, junkNameSize))
  {
    RequestKeepsCode(0, code, junkSize, junkNameSize);
  }

  lemma ClaimFit(code: CodePhrase)
    requires code.Sized()
    ensures Fit(ClaimMessage(code))
    ensures DecodePhrase(ClaimMessage(code).body) == Popped(code, [])
  {
    PhraseRoundTrip([], code);
    assert [] + EncodePhrase(code) == EncodePhrase(code);
  }

  // the steps of a sender

  lemma ContentsStep(h: HashFn, rest: seq<byte>)
    requires rest != []
    ensures var n := ReadCount(rest, MAX_CHUNK);
            && n > 0
            && Contents(h, rest) == [ChunkMessage(h, rest[..n])] + Contents(h, rest[n..])
            && (n < MAX_CHUNK ==> rest[n..] == [])
  {
    var n := ReadCount(rest, MAX_CHUNK);
    Assoc([ChunkMessage(h, rest[..n])], ChunkMessages(h, rest[n..], MAX_CHUNK), [FINAL]);
  }

  lemma NoContents(h: HashFn)
    ensures Contents(h, []) == [FINAL]
  {
  }

  /** Reading a chunk off what is still to be sent. */
  lemma ScriptReads(h: HashFn, up: seq<Message>, rest: seq<byte>, script: seq<Message>)
    requires up + Contents(h, rest) == script && rest != []
    ensures var n := ReadCount(rest, MAX_CHUNK);
            (up + [ChunkMessage(h, rest[..n])]) + Contents(h, rest[n..]) == script
    ensures up <= script && Fit(ChunkMessage(h, rest[..ReadCount(rest, MAX_CHUNK)]))
  {
    var n := ReadCount(rest, MAX_CHUNK);
    ContentsStep(h, rest);
    Assoc(up, [ChunkMessage(h, rest[..n])], Contents(h, rest[n..]));
    assert up <= up + Contents(h, rest);
  }

  lemma ReadsStep(h: HashFn, p: Peer)
    requires ClientInv(h, p) && p.role.Sender? && p.role.pc == Sending
    ensures SenderScript(h, ReadsChunk(h, p).role, ReadsChunk(h, p).up, p.clientOpen)
    ensures forall m :: m in ReadsChunk(h, p).up ==> m in p.up || Fit(m)
  {
    NoContents(h);
    if p.role.rest != [] {
      ScriptReads(h, p.up, p.role.rest, Script(h, p.role.pre, p.role.file));
    }
  }

  lemma SenderReadsKeeps(h: HashFn, p: Peer)
    requires ClientInv(h, p) && p.role.Sender? && p.role.pc == Sending
    ensures ClientInv(h, ReadsChunk(h, p)) && ClientMoves(p, ReadsChunk(h, p))
  {
    ReadsStep(h, p);
    assert p.down != [];
  }

  lemma SenderEndsKeeps(h: HashFn, p: Peer, a: Action)
    requires ClientInv(h, p) && CanStep(p, a) && a.SenderEnds?
    ensures ClientInv(h, ClientStep(h, p, a)) && ClientMoves(p, ClientStep(h, p, a))
  {
    if p.role.pc.ok {
      assert p.up <= p.up + [FINAL];
    }
  }

  lemma SenderSendsKeeps(h: HashFn, p: Peer, a: Action)
    requires ClientInv(h, p) && CanStep(p, a) && a.SenderSends?
    ensures ClientInv(h, ClientStep(h, p, a)) && ClientMoves(p, ClientStep(h, p, a))
  {
    MetadataFit(p.role.pre);
    assert [] + [SendMessage(p.role.pre)] == [SendMessage(p.role.pre)];
  }

  lemma SenderPopsKeeps(h: HashFn, p: Peer, kept: nat)
    requires ClientInv(h, p) && CanPop(p) && p.role.Sender?
    ensures ClientInv(h, PopsNext(h, p, kept)) && ClientMoves(p, PopsNext(h, p, kept))
  {
    var m := p.down[p.downDone];
    assert m in p.down;
    assert m.id == ACCEPT ==> AnnouncesLimit(m);
    Assoc([SendMessage(p.role.pre)], ChunkMessages(h, p.role.file, MAX_CHUNK), [FINAL]);
  }

  // the steps of a receiver

  lemma TookNext(h: HashFn, down: seq<Message>, n: nat)
    requires n < |down|
    ensures TakeAll(h, NOTHING, down[..n + 1]) == Take(h, TakeAll(h, NOTHING, down[..n]), down[n])
  {
    assert down[..n + 1] == down[..n] + [down[n]];
    TakeNext(h, down[..n], down[n]);
  }

  /** Before the claim was handled nothing of a transfer can have been sent. */
  lemma NotYetStream(down: seq<Message>, n: nat)
    requires StreamOf(down) == [] && n < |down|
    ensures !IsStream(down[n])
  {
    StreamOfPrefix(down, n + 1);
    assert down[..n + 1][..n] == down[..n];
  }

  lemma KeptNext(out: seq<byte>, whole: seq<byte>, data: seq<byte>, writes: nat, disk: nat, kept: nat)
    requires Kept(out, whole, writes > disk)
    ensures var stored := if writes < disk then data else if writes == disk then Part(data, kept) else [];
            Kept(out + stored, whole + data, writes + (if data == [] then 0 else 1) > disk)
  {
  }

  lemma PiecesTaken(h: HashFn, down: seq<Message>, n: nat)
    requires n < |down|
    ensures |Pieces(h, down[..n + 1])| ==
            |Pieces(h, down[..n])| + (if Gain(h, TakeAll(h, NOTHING, down[..n]), down[n]) == [] then 0 else 1)
  {
    assert down[..n + 1] == down[..n] + [down[n]];
    PiecesNext(h, down[..n], down[n]);
  }

  lemma WritesTook(h: HashFn, role: Role, down: seq<Message>, n: nat, kept: nat)
    requires role.Receiver? && role.rpc == Looping && n < |down| && ReceiverTook(h, role, down, n)
    ensures ReceiverTook(h, Writes(h, role, down[n], kept), down, n + 1)
  {
    var t := TakeAll(h, NOTHING, down[..n]);
    TookNext(h, down, n);
    PiecesTaken(h, down, n);
    GainSame(h, role.recv, t, down[n]);
    GainTaken(h, t, down[n]);
    KeptNext(role.recv.out, t.out, Gain(h, t, down[n]), role.writes, role.disk, kept);
  }

  lemma LoopPopsKeeps(h: HashFn, p: Peer, kept: nat)
    requires ClientInv(h, p) && CanPop(p) && p.role.Receiver? && p.role.rpc == Looping
    ensures ClientInv(h, PopsNext(h, p, kept)) && ClientMoves(p, PopsNext(h, p, kept))
  {
    var n := p.downDone;
    WritesTook(h, p.role, p.down, n, kept);
    ReceiverPopsScript(p.role, Writes(h, p.role, p.down[n], kept), p.up, p.clientOpen);
  }

  lemma ReplyTook(h: HashFn, role: Role, rpc: ReceiverPc, down: seq<Message>, n: nat)
    requires role.Receiver? && !Ended(role.rpc) && n < |down| && ReceiverTook(h, role, down, n)
    requires StreamOf(down) == [] && rpc != Finished && rpc != Confirmed
    ensures ReceiverTook(h, role.(rpc := rpc), down, n + 1)
  {
    TookNext(h, down, n);
    NotYetStream(down, n);
    PiecesTaken(h, down, n);
    OnlyChunksAdd(h, TakeAll(h, NOTHING, down[..n]), down[n]);
  }

  lemma ReplyPopsKeeps(h: HashFn, p: Peer, kept: nat)
    requires ClientInv(h, p) && CanPop(p) && p.role.Receiver? && p.role.rpc != Looping
    requires StreamOf(p.down) == []
    ensures ClientInv(h, PopsNext(h, p, kept)) && ClientMoves(p, PopsNext(h, p, kept))
  {
    var n := p.downDone;
    var role := ReceiverPops(h, p.role, p.down[n], kept);
    assert role == p.role.(rpc := role.rpc) && role.rpc in {Failed, Prompting, Draining};
    ReplyTook(h, p.role, role.rpc, p.down, n);
    ReceiverPopsScript(p.role, p.role.(rpc := Failed), p.up, p.clientOpen);
    ReceiverTakes(h, p, role);
  }

  /** A receiver takes a message and moves on. */
  lemma ReceiverTakes(h: HashFn, p: Peer, role: Role)
    requires ClientInv(h, p) && p.role.Receiver? && role.Receiver? && p.downDone < |p.down|
    requires role.code == p.role.code && p.role.rpc != Confirmed
    requires ReceiverScript(role, p.up, p.clientOpen) && ReceiverTook(h, role, p.down, p.downDone + 1)
    ensures var q := p.(downDone := p.downDone + 1, role := role); ClientInv(h, q) && ClientMoves(p, q)
  {
  }

  /** A receiver moves on, and may send. */
  lemma ReceiverMoves(h: HashFn, p: Peer, rpc: ReceiverPc, sent: seq<Message>)
    requires ClientInv(h, p) && p.role.Receiver?
    requires forall m :: m in sent ==> Fit(m)
    requires ReceiverScript(p.role.(rpc := rpc), p.up + sent, p.clientOpen)
    requires p.role.rpc != Confirmed && (Ended(p.role.rpc) ==> Ended(rpc))
    requires rpc == Finished || rpc == Confirmed ==> p.role.rpc == Finished
    ensures var q := p.(up := p.up + sent, role := p.role.(rpc := rpc)); ClientInv(h, q) && ClientMoves(p, q)
  {
  }

  lemma ReceiverPopsScript(role: Role, written: Role, up: seq<Message>, open: bool)
    requires role.Receiver? && (role.rpc == AwaitReply || role.rpc == Draining || role.rpc == Looping)
    requires ReceiverScript(role, up, open)
    requires written.Receiver? && written.code == role.code
             && written.junkSize == role.junkSize && written.junkNameSize == role.junkNameSize
    requires written.rpc == Failed || written.rpc == Finished || written.rpc == Looping
    ensures role.rpc == Looping ==> ReceiverScript(written, up, open)
    ensures role.rpc != Looping ==>
              && ReceiverScript(role.(rpc := Failed), up, open)
              && ReceiverScript(role.(rpc := Prompting), up, open)
              && ReceiverScript(role.(rpc := Draining), up, open)
  {
    assert Request(written) == Request(role);
    assert [Request(role)] <= [Request(role), ClaimMessage(role.code)] + [Control(FAILED_RECEIVE)];
    assert [Request(role), ClaimMessage(role.code)]
           <= [Request(role), ClaimMessage(role.code)] + [Control(FAILED_RECEIVE)];
  }

  /** What a send leaves. */
  lemma SendsIs(p: Peer, m: Message)
    ensures Sends(p, m) == p.(up := p.up + if p.clientOpen then [m] else [])
  {
    assert p.up + [] == p.up;
  }

  lemma ReceiverAsksKeeps(h: HashFn, p: Peer, a: Action)
    requires ClientInv(h, p) && CanStep(p, a) && a.ReceiverAsks?
    ensures ClientInv(h, ClientStep(h, p, a)) && ClientMoves(p, ClientStep(h, p, a))
  {
    RequestFit(p.role.code, p.role.junkSize, p.role.junkNameSize);
    SendsIs(p, Request(p.role));
    assert Request(p.role.(rpc := AwaitReply)) == Request(p.role);
    assert [] + [Request(p.role)] == [Request(p.role)];
    ReceiverMoves(h, p, AwaitReply, if p.clientOpen then [Request(p.role)] else []);
  }

  lemma ClaimScript(role: Role, up: seq<Message>, open: bool)
    requires role.Receiver? && role.rpc == Prompting && ReceiverScript(role, up, open)
    ensures ReceiverScript(role.(rpc := Declined), up, open)
    ensures ReceiverScript(role.(rpc := Opening), up + if open then [ClaimMessage(role.code)] else [], open)
  {
    var next := role.(rpc := Opening);
    assert Request(next) == Request(role);
    assert [Request(role)] + [ClaimMessage(role.code)] == [Request(role), ClaimMessage(role.code)];
    assert up + [] == up;
  }

  lemma ReceiverAcceptsKeeps(h: HashFn, p: Peer)
    requires ClientInv(h, p) && p.role.Receiver? && p.role.rpc == Prompting
    ensures var q := Sends(p, ClaimMessage(p.role.code)).(role := p.role.(rpc := Opening));
            ClientInv(h, q) && ClientMoves(p, q)
  {
    ClaimFit(p.role.code);
    SendsIs(p, ClaimMessage(p.role.code));
    ClaimScript(p.role, p.up, p.clientOpen);
    ReceiverMoves(h, p, Opening, if p.clientOpen then [ClaimMessage(p.role.code)] else []);
  }

  lemma ReceiverAnswersKeeps(h: HashFn, p: Peer, a: Action)
    requires ClientInv(h, p) && CanStep(p, a) && a.ReceiverAnswers?
    ensures ClientInv(h, ClientStep(h, p, a)) && ClientMoves(p, ClientStep(h, p, a))
  {
    if a.yes {
      ReceiverAcceptsKeeps(h, p);
    } else {
      ClaimScript(p.role, p.up, p.clientOpen);
      ReceiverMoves(h, p, Declined, []);
      assert p.up + [] == p.up;
    }
  }

  /** A last message, and the move that goes with it. */
  lemma LastScript(role: Role, up: seq<Message>, open: bool, rpc: ReceiverPc, last: uint32)
    requires role.Receiver? && ReceiverScript(role, up, open)
    requires (role.rpc == Opening && rpc == Failed && last == FAILED_RECEIVE) ||
             (role.rpc == Finished && rpc == Confirmed && last == FINISH_RECEIVE)
    ensures ReceiverScript(role.(rpc := rpc), up + if open then [Control(last)] else [], open)
    ensures role.rpc == Opening ==> ReceiverScript(role.(rpc := Looping), up, open)
  {
    var next := role.(rpc := rpc);
    assert Request(next) == Request(role) == Request(role.(rpc := Looping));
    var claimed := [Request(role), ClaimMessage(role.code)];
    assert claimed <= claimed + [Control(last)];
    assert up + [] == up;
  }

  lemma ReceiverEndsKeeps(h: HashFn, p: Peer, rpc: ReceiverPc, last: uint32)
    requires ClientInv(h, p) && p.role.Receiver?
    requires (p.role.rpc == Opening && rpc == Failed && last == FAILED_RECEIVE) ||
             (p.role.rpc == Finished && rpc == Confirmed && last == FINISH_RECEIVE)
    ensures var q := Sends(p, Control(last)).(role := p.role.(rpc := rpc)); ClientInv(h, q) && ClientMoves(p, q)
  {
    SendsIs(p, Control(last));
    LastScript(p.role, p.up, p.clientOpen, rpc, last);
    ReceiverMoves(h, p, rpc, if p.clientOpen then [Control(last)] else []);
  }

  lemma ReceiverOpensKeeps(h: HashFn, p: Peer, a: Action)
    requires ClientInv(h, p) && CanStep(p, a) && a.ReceiverOpens?
    ensures ClientInv(h, ClientStep(h, p, a)) && ClientMoves(p, ClientStep(h, p, a))
  {
    if a.success {
      LastScript(p.role, p.up, p.clientOpen, Failed, FAILED_RECEIVE);
      ReceiverMoves(h, p, Looping, []);
      assert p.up + [] == p.up;
    } else {
      ReceiverEndsKeeps(h, p, Failed, FAILED_RECEIVE);
    }
  }

  lemma ReceiverConfirmsKeeps(h: HashFn, p: Peer, a: Action)
    requires ClientInv(h, p) && CanStep(p, a) && a.ReceiverConfirms?
    ensures ClientInv(h, ClientStep(h, p, a)) && ClientMoves(p, ClientStep(h, p, a))
  {
    ReceiverEndsKeeps(h, p, Confirmed, FINISH_RECEIVE);
  }

  lemma OtherStepsKeep(h: HashFn, p: Peer, a: Action)
    requires ClientInv(h, p) && CanStep(p, a)
    requires a.ClientCloses? || a.ServerCloses? || a.RogueSends? || a.QueueEmpty?
    ensures ClientInv(h, ClientStep(h, p, a)) && ClientMoves(p, ClientStep(h, p, a))
  {
  }
}
