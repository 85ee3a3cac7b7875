/** Every step of the relay keeps its invariant. */
module RelaySafety {
  import opened NetMessage
  import opened Codec
  import opened Server
  import opened ServerProofs
  import opened Sessions
  import opened Relay
  import opened RelayInvariant
  import opened RelayServer

  // ---------- senders ----------

  lemma OwnMetadata(st: Store, open: set<Conn>, c: Conn, pre: PreMetadata, down: seq<Message>, serverOpen: bool)
    requires Chained(st) && pre.Sized() && SenderStore(st, c, pre, 0, down, serverOpen)
    ensures Fit(SendMessage(pre))
    ensures var o := Handle(st, open, c, SendMessage(pre));
            o.posts == [] && SenderStore(o.store, c, pre, 1, down, serverOpen)
  {
    MetadataFit(pre);
  }

  lemma OwnContent(st: Store, open: set<Conn>, c: Conn, m: Message, pre: PreMetadata,
                   upDone: nat, down: seq<Message>, serverOpen: bool)
    requires Chained(st) && SenderStore(st, c, pre, upDone, down, serverOpen) && upDone > 0
    requires m.id == CHUNK || m.id == FINAL_CHUNK
    ensures var o := Handle(st, open, c, m);
            !SentTo(o.posts, c) && SenderStore(o.store, c, pre, upDone + 1, down, serverOpen)
  {
    if c in st.sessions {
      SessionedSeen(st, open, c, m, c);
      DropSeen(st, c, c);
    }
  }

  lemma OtherSenderAfter(h: HashFn, st: Store, open: set<Conn>, o: Outcome, c: Conn, x: Conn, p: Peer)
    requires x != c && p.role.Sender? && ClientInv(h, p) && Chained(st)
    requires SenderStore(st, x, p.role.pre, p.upDone, p.down, p.serverOpen)
    requires SenderSees(st, open, o, c, x) && (p.serverOpen <==> x in open)
    requires o.posts != [] ==> Sound(o.posts[0].msg) && o.posts[0].to in open
    ensures var q := Delivered(p, x, o.posts);
            ClientInv(h, q) && SenderStore(o.store, x, q.role.pre, q.upDone, q.down, q.serverOpen)
  {
    OtherSenderStore(st, open, o, c, x, p);
    if SentTo(o.posts, x) {
      OtherSenderGets(st, open, o, c, x, p);
    }
    DeliveredClient(h, p, p, x, o.posts);
  }

  // ---------- receivers ----------

  /** A message that is not the receiver's own claim. */
  lemma ReceiverKept(st: Store, o: Outcome, claims: map<Conn, Conn>, claims': map<Conn, Conn>,
                     c: Conn, m: Message, x: Conn, p: Peer, q: Peer)
    requires ReceiverSees(st, o, c, m, x)
    requires ReceiverStore(st, claims, x, p.upDone, p.down)
    requires x in claims' <==> x in claims
    requires x in claims ==> claims'[x] == claims[x]
    requires q == p || (q == p.(upDone := p.upDone + 1) && p.upDone != 1)
    ensures ReceiverStore(o.store, claims', x, q.upDone, Delivered(q, x, o.posts).down)
  {
    if SentTo(o.posts, x) {
      StreamNext(p.down, o.posts[0].msg);
    }
  }

  /** The receiver's own claim. */
  lemma ReceiverClaimed(st: Store, open: set<Conn>, claims: map<Conn, Conn>, x: Conn, code: CodePhrase, p: Peer)
    requires Chained(st) && code.Sized() && ReceiverStore(st, claims, x, 1, p.down)
    ensures Fit(ClaimMessage(code))
    ensures var m := ClaimMessage(code); var o := Handle(st, open, x, m);
            ReceiverStore(o.store, NextClaims(st, claims, x, m), x, 2, Delivered(p, x, o.posts).down)
  {
    ClaimFit(code);
    assert x !in st.sessions;
    if code.code in st.phrases.right {
      SessionClaimed(st, open, claims, x, code, p);
    } else {
      StreamNext(p.down, Control(ABORT));
    }
  }

  lemma SessionClaimed(st: Store, open: set<Conn>, claims: map<Conn, Conn>, x: Conn, code: CodePhrase, p: Peer)
    requires Chained(st) && x !in st.contexts && ReceiverStore(st, claims, x, 1, p.down)
    requires code.code in st.phrases.right
    ensures var s := st.phrases.right[code.code];
            s in st.contexts
            && var posts := Offer(open, s, AcceptMessage(st.contexts[s].post));
               ReceiverStore(st.AddSession(s, x), claims[x := s], x, 2, Delivered(p, x, posts).down)
  {
    var s := st.phrases.right[code.code];
    assert s in st.phrases.left;
  }

  // ---------- the connection whose message is handled ----------

  /** After its own message, its ties to the server hold again. */
  ghost predicate OwnAfter(p: Peer, c: Conn, o: Outcome, claims: map<Conn, Conn>) {
    match p.role
    case Sender(_, pre, _, _, _) =>
      !SentTo(o.posts, c) && SenderStore(o.store, c, pre, p.upDone + 1, p.down, p.serverOpen)
    case Receiver(_, _, _, _, _, _, _) =>
      ReceiverStore(o.store, claims, c, p.upDone + 1, Delivered(p, c, o.posts).down)
    case Rogue => true
  }

  lemma OwnSenderAfter(h: HashFn, st: Store, open: set<Conn>, claims: map<Conn, Conn>, c: Conn, p: Peer)
    requires Chained(st) && ClientInv(h, p) && p.role.Sender? && p.upDone < |p.up|
    requires SenderStore(st, c, p.role.pre, p.upDone, p.down, p.serverOpen)
    ensures Decodable(p.up[p.upDone])
    ensures OwnAfter(p, c, Handle(st, open, c, p.up[p.upDone]), claims)
  {
    SenderHead(h, p.role, p.up, p.clientOpen, p.upDone);
    if p.upDone == 0 {
      OwnMetadata(st, open, c, p.role.pre, p.down, p.serverOpen);
    } else {
      OwnContent(st, open, c, p.up[p.upDone], p.role.pre, p.upDone, p.down, p.serverOpen);
    }
  }

  lemma OwnReceiverAfter(h: HashFn, st: Store, open: set<Conn>, claims: map<Conn, Conn>, c: Conn, p: Peer)
    requires Chained(st) && ClientInv(h, p) && p.role.Receiver? && p.upDone < |p.up|
    requires ReceiverStore(st, claims, c, p.upDone, p.down) && Decodable(p.up[p.upDone])
    ensures OwnAfter(p, c, Handle(st, open, c, p.up[p.upDone]), NextClaims(st, claims, c, p.up[p.upDone]))
  {
    var m := p.up[p.upDone];
    ReceiverHead(p.role, p.up, p.clientOpen, p.upDone);
    assert c !in st.sessions;
    if p.upDone == 1 {
      ReceiverClaimed(st, open, claims, c, p.role.code, p);
    } else {
      HandleSeenByReceiver(st, open, c, m, c);
      ReceiverKept(st, Handle(st, open, c, m), claims, claims, c, m, c, p, p.(upDone := p.upDone + 1));
    }
  }

  // ---------- transfers ----------

  /** The sender's own chunk or final chunk, seen from the receiver that claimed it. */
  ghost predicate RelaySees(st: Store, open: set<Conn>, o: Outcome, s: Conn, m: Message, r: Conn) {
    if Linked(st, s, r) && Linked(o.store, s, r) then
      o.posts == if r in open then [Post(r, m)] else []
    else
      && !Linked(o.store, s, r)
      && (SentTo(o.posts, r) && IsStream(o.posts[0].msg) ==> Linked(st, s, r) && o.posts[0].msg == Control(ABORT))
  }

  lemma RelayStep(st: Store, open: set<Conn>, s: Conn, m: Message, r: Conn)
    requires m.id == CHUNK || m.id == FINAL_CHUNK
    ensures RelaySees(st, open, Handle(st, open, s, m), s, m, r)
  {
  }

  lemma BodyOfAbort(stream: seq<Message>, content: seq<Message>)
    requires stream <= content
    requires forall m :: m in content ==> m.id != ABORT
    ensures Body(stream) == stream
    ensures Body(stream + [Control(ABORT)]) == stream
  {
    if stream != [] {
      assert stream[|stream| - 1] in content;
    }
    assert (stream + [Control(ABORT)])[..|stream|] == stream;
  }

  /** The transfer between the content handled and the stream sent. */
  ghost predicate Flows(linked: bool, content: seq<Message>, stream: seq<Message>, isOpen: bool) {
    && Body(stream) <= content
    && (linked ==> stream <= content && (isOpen ==> stream == content))
  }

  /** The session goes on with one more message. */
  lemma FlowsOn(content: seq<Message>, m: Message, stream: seq<Message>, isOpen: bool)
    requires Flows(true, content, stream, isOpen)
    requires forall x :: x in content + [m] ==> x.id != ABORT
    ensures Flows(true, content + [m], stream + if isOpen then [m] else [], isOpen)
  {
    BodyOfAbort(stream + if isOpen then [m] else [], content + [m]);
  }

  /** It is over, with an Abort or without. */
  lemma FlowsOut(content: seq<Message>, m: Message, stream: seq<Message>, next: seq<Message>,
                 linked: bool, isOpen: bool)
    requires Flows(linked, content, stream, isOpen)
    requires forall x :: x in content + [m] ==> x.id != ABORT
    requires next == stream || (linked && next == stream + [Control(ABORT)])
    ensures Flows(false, content + [m], next, isOpen)
  {
    assert content <= content + [m];
    if linked {
      BodyOfAbort(stream, content + [m]);
    }
  }

  lemma StreamGrows(down: seq<Message>, sent: seq<Message>)
    requires |sent| <= 1
    ensures StreamOf(down + sent) == StreamOf(down) + if sent != [] && IsStream(sent[0]) then sent else []
  {
    if sent != [] {
      StreamNext(down, sent[0]);
      assert sent == [sent[0]];
    } else {
      assert down + sent == down;
    }
  }

  /** Handling one more of the sender's messages. */
  lemma FlowRelayed(up: seq<Message>, d: nat, down: seq<Message>, linked: bool, linked': bool,
                     isOpen: bool, sent: seq<Message>)
    requires Flow(linked, up, d, down, isOpen) && d < |up| && (linked' ==> linked)
    requires forall m :: m in up[1..] ==> m.id == CHUNK || m.id == FINAL_CHUNK
    requires linked' ==> sent == if isOpen then [up[d]] else []
    requires !linked' ==> sent == [] || !IsStream(sent[0]) || (linked && sent[0] == Control(ABORT))
    requires |sent| <= 1
    ensures Flow(linked', up, d + 1, down + sent, isOpen)
  {
    assert up[1..d + 1] == up[1..d] + [up[d]];
    assert up[d] == up[1..][d - 1];
    ContentOnly(up, d + 1);
    StreamGrows(down, sent);
    if linked' {
      FlowsOn(up[1..d], up[d], StreamOf(down), isOpen);
    } else {
      FlowsOut(up[1..d], up[d], StreamOf(down), StreamOf(down + sent), linked, isOpen);
    }
  }

  lemma ContentOnly(up: seq<Message>, d: nat)
    requires 1 <= d <= |up|
    requires forall m :: m in up[1..] ==> m.id == CHUNK || m.id == FINAL_CHUNK
    ensures forall m :: m in up[1..d] ==> m.id != ABORT
  {
    assert up[1..d] <= up[1..];
  }

  /** Handling a message of another connection. */
  lemma FlowUntouched(up: seq<Message>, d: nat, down: seq<Message>, linked: bool, linked': bool,
                     isOpen: bool, sent: seq<Message>)
    requires Flow(linked, up, d, down, isOpen) && (linked' ==> linked)
    requires forall m :: m in up[1..] ==> m.id == CHUNK || m.id == FINAL_CHUNK
    requires |sent| <= 1 && (sent == [] || !IsStream(sent[0]) || (linked && !linked' && sent[0] == Control(ABORT)))
    ensures Flow(linked', up, d, down + sent, isOpen)
  {
    ContentOnly(up, d);
    StreamGrows(down, sent);
    if sent != [] && IsStream(sent[0]) {
      BodyOfAbort(StreamOf(down), up[1..d]);
    }
  }

  /** A claim that reaches a sender: nothing but the sender's metadata has been handled. */
  lemma FlowBegins(up: seq<Message>, d: nat, down: seq<Message>, linked: bool, isOpen: bool)
    requires 1 <= d <= |up| && StreamOf(down) == [] && (linked ==> d == 1)
    ensures Flow(linked, up, d, down, isOpen)
  {
  }
}
