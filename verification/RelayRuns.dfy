/** The invariant of the relay holds in every reachable state. */
module RelayRuns {
  import opened NetMessage
  import opened Codec
  import opened Server
  import opened ServerProofs
  import opened Sessions
  import opened Relay
  import opened RelayInvariant
  import opened RelayServer
  import opened RelaySafety

  // ---------- a handled message ----------

  ghost predicate SameElsewhere(claims: map<Conn, Conn>, claims': map<Conn, Conn>, c: Conn) {
    && (forall x :: x in claims ==> x in claims' && (x != c ==> claims'[x] == claims[x]))
    && (forall x :: x in claims' && x != c ==> x in claims)
  }

  ghost predicate Grows(st: Store, st': Store, c: Conn) {
    && (forall x :: x in st'.contexts ==> x in st.contexts || x == c)
    && (forall s :: s in st'.sessions ==>
          st'.sessions[s] == c || (s in st.sessions && st'.sessions[s] == st.sessions[s]))
    && (forall x :: x in st'.pairs.right ==> x in st.pairs.right || x == c)
  }

  /** A claim that reaches s: it has the phrase, and a session with the claimant is new. */
  ghost predicate NewClaim(st: Store, o: Outcome, s: Conn, r: Conn, code: CodePhrase) {
    && s in st.phrases.left && st.phrases.left[s] == code.code
    && (Linked(o.store, s, r) ==> s !in st.sessions)
    && !(SentTo(o.posts, r) && IsStream(o.posts[0].msg))
  }

  /** What handling a message does to the storage and the channels, whoever sent it. */
  ghost predicate PlainEffects(st: Store, open: set<Conn>, c: Conn, m: Message, o: Outcome) {
    && Chained(o.store) && Grows(st, o.store, c)
    && |o.posts| <= 1
    && (o.posts != [] ==> Sound(o.posts[0].msg) && o.posts[0].to in open)
    && (o.posts != [] && o.posts[0].msg.id == SUCCESS ==>
          m.id == FINISH_RECEIVE && c in st.pairs.right && o.posts[0].to == st.pairs.right[c])
  }

  /** What it is to the other connections. */
  ghost predicate OthersEffects(w: World, c: Conn, m: Message, o: Outcome)
    requires c in w.peers
  {
    && (forall x :: x != c && NeverReceives(w.store, x) ==> SenderSees(w.store, OpenSet(w.peers), o, c, x))
    && (forall x :: x in w.peers && w.peers[x].role.Receiver? && (x != c || w.peers[c].upDone != 1) ==>
                      ReceiverSees(w.store, o, c, m, x))
  }

  /** What the content of a sender is to the connections that claimed it. */
  ghost predicate RelayedEffects(w: World, c: Conn, m: Message, o: Outcome)
    requires c in w.peers
  {
    w.peers[c].role.Sender? && w.peers[c].upDone > 0 ==>
      forall r :: r in w.peers ==> RelaySees(w.store, OpenSet(w.peers), o, c, m, r)
  }

  /** What a receiver's message does to the claims. */
  ghost predicate ClaimedEffects(w: World, c: Conn, o: Outcome, claims: map<Conn, Conn>)
    requires c in w.peers
  {
    var p := w.peers[c];
    && SameElsewhere(w.claims, claims, c)
    && (p.role.Receiver? ==>
          && (p.upDone == 1 ==> c !in w.claims)
          && (c in w.claims ==> claims[c] == w.claims[c])
          && (c in claims && c !in w.claims ==> p.upDone == 1 && NewClaim(w.store, o, claims[c], c, p.role.code)))
  }

  ghost predicate Effects(w: World, c: Conn, m: Message, o: Outcome, claims: map<Conn, Conn>)
    requires c in w.peers
  {
    && w.peers[c].upDone < |w.peers[c].up| && m == w.peers[c].up[w.peers[c].upDone]
    && PlainEffects(w.store, OpenSet(w.peers), c, m, o)
    && OthersEffects(w, c, m, o)
    && OwnAfter(w.peers[c], c, o, claims)
    && RelayedEffects(w, c, m, o)
    && ClaimedEffects(w, c, o, claims)
  }

  lemma HandleGrows(st: Store, open: set<Conn>, c: Conn, m: Message)
    requires Chained(st) && Decodable(m)
    ensures Grows(st, Handle(st, open, c, m).store, c)
  {
    if c in st.sessions {
      DropGrows(st, c, c);
    } else if m.id == SEND {
      SendGrows(st, open, c, m);
    } else if m.id == RECEIVE {
      ClaimGrows(st, open, c, m);
    } else {
      ReleaseGrows(st, open, c, m);
    }
  }

  lemma SendGrows(st: Store, open: set<Conn>, c: Conn, m: Message)
    requires DecodePre(m.body).Popped? && c !in st.sessions
    ensures Grows(st, OnSend(st, open, c, m).store, c)
  {
  }

  lemma ClaimGrows(st: Store, open: set<Conn>, c: Conn, m: Message)
    requires Chained(st) && DecodePhrase(m.body).Popped?
    ensures Grows(st, OnReceive(st, open, c, m).store, c)
  {
  }

  lemma ReleaseGrows(st: Store, open: set<Conn>, c: Conn, m: Message)
    requires st.pairs.Valid() && Decodable(m) && c !in st.sessions && m.id != SEND && m.id != RECEIVE
    ensures Grows(st, Handle(st, open, c, m).store, c)
  {
    if c in st.pairs.right {
      DropGrows(st, st.pairs.right[c], c);
    }
  }

  lemma DropGrows(st: Store, s: Conn, c: Conn)
    requires st.pairs.Valid()
    ensures Grows(st, st.Drop(s), c)
  {
    EraseValid(st.pairs, s);
  }

  lemma OwnEffects(h: HashFn, w: World, c: Conn, m: Message)
    requires Chained(w.store) && c in w.peers && w.peers[c].upDone < |w.peers[c].up|
    requires m == w.peers[c].up[w.peers[c].upDone] && Decodable(m)
    requires ClientInv(h, w.peers[c]) && ServerInv(w, c, w.peers[c])
    ensures OwnAfter(w.peers[c], c, Handle(w.store, OpenSet(w.peers), c, m), NextClaims(w.store, w.claims, c, m))
  {
    var p := w.peers[c];
    match p.role
    case Sender(_, _, _, _, _) =>
      OwnSenderAfter(h, w.store, OpenSet(w.peers), NextClaims(w.store, w.claims, c, m), c, p);
    case Receiver(_, _, _, _, _, _, _) => OwnReceiverAfter(h, w.store, OpenSet(w.peers), w.claims, c, p);
    case Rogue =>
  }

  lemma RelayEffects(h: HashFn, w: World, c: Conn)
    requires Inv(h, w) && Enabled(w, ServerHandles(c))
    ensures var m := w.peers[c].up[w.peers[c].upDone];
            RelayedEffects(w, c, m, Handle(w.store, OpenSet(w.peers), c, m))
  {
    var p := w.peers[c];
    var m := p.up[p.upDone];
    if p.role.Sender? && p.upDone > 0 {
      assert ClientInv(h, p);
      SenderHead(h, p.role, p.up, p.clientOpen, p.upDone);
      forall r | r in w.peers
        ensures RelaySees(w.store, OpenSet(w.peers), Handle(w.store, OpenSet(w.peers), c, m), c, m, r)
      {
        RelayStep(w.store, OpenSet(w.peers), c, m, r);
      }
    }
  }

  lemma ClaimOutcome(st: Store, open: set<Conn>, claims: map<Conn, Conn>, r: Conn, code: CodePhrase, down: seq<Message>)
    requires Chained(st) && code.Sized() && ReceiverStore(st, claims, r, 1, down)
    requires Decodable(ClaimMessage(code))
    ensures var m := ClaimMessage(code); var claims' := NextClaims(st, claims, r, m);
            r in claims' ==> NewClaim(st, Handle(st, open, r, m), claims'[r], r, code)
  {
    ClaimFit(code);
    assert r !in st.sessions;
  }

  lemma OtherClaimsStay(st: Store, claims: map<Conn, Conn>, c: Conn, m: Message)
    requires Decodable(m)
    ensures SameElsewhere(claims, NextClaims(st, claims, c, m), c)
    ensures m.id != RECEIVE ==> NextClaims(st, claims, c, m) == claims
  {
  }

  lemma ClaimEffects(h: HashFn, w: World, c: Conn, m: Message)
    requires Chained(w.store) && c in w.peers && w.peers[c].upDone < |w.peers[c].up|
    requires m == w.peers[c].up[w.peers[c].upDone] && Decodable(m)
    requires ClientInv(h, w.peers[c]) && ServerInv(w, c, w.peers[c])
    ensures ClaimedEffects(w, c, Handle(w.store, OpenSet(w.peers), c, m), NextClaims(w.store, w.claims, c, m))
  {
    OtherClaimsStay(w.store, w.claims, c, m);
    if w.peers[c].role.Receiver? {
      ReceiverClaims(w.store, OpenSet(w.peers), w.claims, c, m, w.peers[c]);
    }
  }

  lemma ReceiverClaims(st: Store, open: set<Conn>, claims: map<Conn, Conn>, c: Conn, m: Message, p: Peer)
    requires Chained(st) && p.role.Receiver? && p.role.code.Sized() && ReceiverScript(p.role, p.up, p.clientOpen)
    requires p.upDone < |p.up| && m == p.up[p.upDone] && Decodable(m)
    requires ReceiverStore(st, claims, c, p.upDone, p.down)
    ensures var o, claims' := Handle(st, open, c, m), NextClaims(st, claims, c, m);
            && (p.upDone == 1 ==> c !in claims)
            && (c in claims ==> c in claims' && claims'[c] == claims[c])
            && (c in claims' && c !in claims ==> p.upDone == 1 && NewClaim(st, o, claims'[c], c, p.role.code))
  {
    ReceiverHead(p.role, p.up, p.clientOpen, p.upDone);
    if p.upDone == 1 {
      ClaimOutcome(st, open, claims, c, p.role.code, p.down);
    } else {
      OtherClaimsStay(st, claims, c, m);
    }
  }

  lemma SinksSee(h: HashFn, peers: map<Conn, Peer>, st: Store, claims: map<Conn, Conn>, c: Conn, m: Message, x: Conn)
    requires Chained(st) && Decodable(m) && c in peers
    requires x == c ==>
      && peers[c].role.Receiver? && peers[c].upDone != 1 && peers[c].upDone < |peers[c].up|
      && m == peers[c].up[peers[c].upDone] && ClientInv(h, peers[c])
      && ReceiverStore(st, claims, c, peers[c].upDone, peers[c].down)
    ensures ReceiverSees(st, Handle(st, OpenSet(peers), c, m), c, m, x)
  {
    if x == c {
      ReceiverHead(peers[c].role, peers[c].up, peers[c].clientOpen, peers[c].upDone);
      assert c !in st.sessions;
    }
    HandleSeenByReceiver(st, OpenSet(peers), c, m, x);
  }

  lemma OthersSee(h: HashFn, w: World, c: Conn, m: Message)
    requires Chained(w.store) && c in w.peers && w.peers[c].upDone < |w.peers[c].up|
    requires m == w.peers[c].up[w.peers[c].upDone] && Decodable(m)
    requires ClientInv(h, w.peers[c]) && ServerInv(w, c, w.peers[c])
    ensures OthersEffects(w, c, m, Handle(w.store, OpenSet(w.peers), c, m))
  {
    forall x | x != c && NeverReceives(w.store, x)
      ensures SenderSees(w.store, OpenSet(w.peers), Handle(w.store, OpenSet(w.peers), c, m), c, x)
    {
      HandleSeenBySender(w.store, OpenSet(w.peers), c, m, x);
    }
    forall x | x in w.peers && w.peers[x].role.Receiver? && (x != c || w.peers[c].upDone != 1)
      ensures ReceiverSees(w.store, Handle(w.store, OpenSet(w.peers), c, m), c, m, x)
    {
      SinksSee(h, w.peers, w.store, w.claims, c, m, x);
    }
  }

  lemma PlainlyHandled(st: Store, open: set<Conn>, c: Conn, m: Message)
    requires Chained(st) && Fit(m)
    ensures PlainEffects(st, open, c, m, Handle(st, open, c, m))
  {
    HandleChained(st, open, c, m);
    HandleGrows(st, open, c, m);
    AtMostOnePost(st, open, c, m);
    PostsSound(st, open, c, m);
    PostsGoToOpen(st, open, c, m);
    SuccessFrom(st, open, c, m);
  }

  // ---------- the invariant after a handled message ----------

  /** The state after handling a message of c with the given outcome and claims. */
  function Next(w: World, c: Conn, o: Outcome, claims: map<Conn, Conn>): World {
    World(o.store, AfterHandling(w.peers, c, o.posts), claims, NextConfirmed(w.confirmed, c, o.posts))
  }

  /** The outcome of the next message of c. */
  function Answer(w: World, c: Conn): Outcome
    requires Enabled(w, ServerHandles(c))
  {
    Handle(w.store, OpenSet(w.peers), c, w.peers[c].up[w.peers[c].upDone])
  }

  function PeerNext(p: Peer, x: Conn, c: Conn, posts: seq<Post>): Peer {
    Delivered(if x == c then p.(upDone := p.upDone + 1) else p, x, posts)
  }

  /** What is added to the channel to x. */
  function Added(posts: seq<Post>, x: Conn): seq<Message> {
    if SentTo(posts, x) then [posts[0].msg] else []
  }

  lemma PeerNextFields(p: Peer, x: Conn, c: Conn, posts: seq<Post>)
    ensures var q := PeerNext(p, x, c, posts);
            && q.down == p.down + Added(posts, x) && q.up == p.up && q.role == p.role
            && q.serverOpen == p.serverOpen && q.upDone == if x == c then p.upDone + 1 else p.upDone
  {
    assert p.down + [] == p.down;
  }

  lemma SucceedsNext(pc: SenderPc, down: seq<Message>, x: Conn, confirmed: map<Conn, Conn>, c: Conn, posts: seq<Post>)
    requires Succeeds(pc, down, x, confirmed)
    ensures Succeeds(pc, down + Added(posts, x), x, NextConfirmed(confirmed, c, posts))
  {
  }

  lemma OwnSenderNext(h: HashFn, p: Peer, c: Conn, o: Outcome, claims: map<Conn, Conn>)
    requires ClientInv(h, p) && p.role.Sender? && p.upDone < |p.up| && OwnAfter(p, c, o, claims)
    requires o.posts != [] ==> Sound(o.posts[0].msg)
    ensures var q := PeerNext(p, c, c, o.posts);
            ClientInv(h, q) && SenderStore(o.store, c, q.role.pre, q.upDone, q.down, q.serverOpen)
  {
    DeliveredClient(h, p, p.(upDone := p.upDone + 1), c, o.posts);
  }

  lemma SenderNext(h: HashFn, w: World, c: Conn, m: Message, o: Outcome, claims: map<Conn, Conn>, x: Conn)
    requires Chained(w.store) && c in w.peers && Effects(w, c, m, o, claims)
    requires x in w.peers && w.peers[x].role.Sender? && ClientInv(h, w.peers[x]) && ServerInv(w, x, w.peers[x])
    ensures var q := PeerNext(w.peers[x], x, c, o.posts);
            ClientInv(h, q) && ServerInv(Next(w, c, o, claims), x, q)
  {
    var p := w.peers[x];
    if x == c {
      OwnSenderNext(h, p, c, o, claims);
    } else {
      OtherSenderAfter(h, w.store, OpenSet(w.peers), o, c, x, p);
    }
    PeerNextFields(p, x, c, o.posts);
    SucceedsNext(p.role.pc, p.down, x, w.confirmed, c, o.posts);
  }

  lemma OwnReceiverNext(h: HashFn, p: Peer, c: Conn, o: Outcome, claims: map<Conn, Conn>)
    requires ClientInv(h, p) && !p.role.Sender? && p.upDone < |p.up| && OwnAfter(p, c, o, claims)
    requires o.posts != [] ==> Sound(o.posts[0].msg)
    ensures var q := PeerNext(p, c, c, o.posts);
            ClientInv(h, q) && (q.role.Receiver? ==> ReceiverStore(o.store, claims, c, q.upDone, q.down))
  {
    DeliveredClient(h, p, p.(upDone := p.upDone + 1), c, o.posts);
    PeerNextFields(p, c, c, o.posts);
  }

  lemma OtherReceiverNext(h: HashFn, st: Store, o: Outcome, claims: map<Conn, Conn>, claims': map<Conn, Conn>,
                          c: Conn, m: Message, x: Conn, p: Peer)
    requires ClientInv(h, p) && !p.role.Sender? && x != c && SameElsewhere(claims, claims', c)
    requires o.posts != [] ==> Sound(o.posts[0].msg)
    requires p.role.Receiver? ==> ReceiverStore(st, claims, x, p.upDone, p.down) && ReceiverSees(st, o, c, m, x)
    ensures var q := PeerNext(p, x, c, o.posts);
            ClientInv(h, q) && (q.role.Receiver? ==> ReceiverStore(o.store, claims', x, q.upDone, q.down))
  {
    DeliveredClient(h, p, p, x, o.posts);
    PeerNextFields(p, x, c, o.posts);
    if p.role.Receiver? {
      ReceiverKept(st, o, claims, claims', c, m, x, p, p);
    }
  }

  lemma ReceiverNext(h: HashFn, w: World, c: Conn, m: Message, o: Outcome, claims: map<Conn, Conn>, x: Conn)
    requires c in w.peers && Effects(w, c, m, o, claims)
    requires x in w.peers && !w.peers[x].role.Sender? && ClientInv(h, w.peers[x]) && ServerInv(w, x, w.peers[x])
    ensures var q := PeerNext(w.peers[x], x, c, o.posts);
            ClientInv(h, q) && ServerInv(Next(w, c, o, claims), x, q)
  {
    PeerNextFields(w.peers[x], x, c, o.posts);
    if x == c {
      OwnReceiverNext(h, w.peers[x], c, o, claims);
    } else {
      OtherReceiverNext(h, w.store, o, w.claims, claims, c, m, x, w.peers[x]);
    }
  }

  /** All but the first message of a sender carry content. */
  lemma SenderContent(h: HashFn, p: Peer)
    requires ClientInv(h, p) && p.role.Sender? && p.up != []
    ensures forall m :: m in p.up[1..] ==> m.id == CHUNK || m.id == FINAL_CHUNK
  {
    ScriptContent(h, p.role, p.up, p.clientOpen);
  }

  lemma ScriptContent(h: HashFn, role: Role, up: seq<Message>, open: bool)
    requires role.Sender? && SenderScript(h, role, up, open) && up != []
    ensures forall m :: m in up[1..] ==> m.id == CHUNK || m.id == FINAL_CHUNK
  {
    forall m | m in up[1..]
      ensures m.id == CHUNK || m.id == FINAL_CHUNK
    {
      var i :| 0 <= i < |up[1..]| && up[1..][i] == m;
      SenderHead(h, role, up, open, i + 1);
    }
  }

  lemma RelayedAdds(st: Store, open: set<Conn>, o: Outcome, s: Conn, m: Message, r: Conn, isOpen: bool)
    requires RelaySees(st, open, o, s, m, r) && |o.posts| <= 1 && (isOpen <==> r in open)
    ensures var sent := Added(o.posts, r);
            && |sent| <= 1 && (Linked(o.store, s, r) ==> Linked(st, s, r))
            && (Linked(o.store, s, r) ==> sent == if isOpen then [m] else [])
            && (!Linked(o.store, s, r) ==>
                  sent == [] || !IsStream(sent[0]) || (Linked(st, s, r) && sent[0] == Control(ABORT)))
  {
  }

  /** The transfer of a claim made earlier, when its own sender is handled. */
  lemma FlowNextOwn(st: Store, open: set<Conn>, o: Outcome, s: Conn, r: Conn, up: seq<Message>, d: nat, rp: Peer)
    requires d < |up| && |o.posts| <= 1
    requires forall m :: m in up[1..] ==> m.id == CHUNK || m.id == FINAL_CHUNK
    requires Flow(Linked(st, s, r), up, d, rp.down, rp.serverOpen)
    requires RelaySees(st, open, o, s, up[d], r) && (rp.serverOpen <==> r in open)
    ensures Flow(Linked(o.store, s, r), up, d + 1, rp.down + Added(o.posts, r), rp.serverOpen)
  {
    RelayedAdds(st, open, o, s, up[d], r, rp.serverOpen);
    FlowRelayed(up, d, rp.down, Linked(st, s, r), Linked(o.store, s, r), rp.serverOpen, Added(o.posts, r));
  }

  /** The transfer of a claim made earlier, when another connection is handled. */
  lemma FlowNextOther(h: HashFn, st: Store, o: Outcome, c: Conn, m: Message, claims: map<Conn, Conn>,
                      s: Conn, r: Conn, sp: Peer, rp: Peer)
    requires ClientInv(h, sp) && sp.role.Sender? && c != s && |o.posts| <= 1
    requires ReceiverStore(st, claims, r, rp.upDone, rp.down) && r in claims && claims[r] == s
    requires Flow(Linked(st, s, r), sp.up, sp.upDone, rp.down, rp.serverOpen)
    requires ReceiverSees(st, o, c, m, r)
    ensures Flow(Linked(o.store, s, r), sp.up, sp.upDone, rp.down + Added(o.posts, r), rp.serverOpen)
  {
    SenderContent(h, sp);
    FlowUntouched(sp.up, sp.upDone, rp.down, Linked(st, s, r), Linked(o.store, s, r), rp.serverOpen, Added(o.posts, r));
  }

  /** The transfer that a new claim begins. */
  lemma FlowNextNew(h: HashFn, st: Store, o: Outcome, s: Conn, r: Conn, sp: Peer, rp: Peer)
    requires Chained(st) && ClientInv(h, sp) && sp.role.Sender? && rp.role.Receiver? && rp.role.code.Sized()
    requires SenderStore(st, s, sp.role.pre, sp.upDone, sp.down, sp.serverOpen)
    requires StreamOf(rp.down) == [] && NewClaim(st, o, s, r, rp.role.code)
    ensures rp.role.code == sp.role.pre.phrase
    ensures Flow(Linked(o.store, s, r), sp.up, sp.upDone, rp.down + Added(o.posts, r), rp.serverOpen)
  {
    assert s in st.contexts && st.contexts[s].pre == sp.role.pre;
    var sent := Added(o.posts, r);
    if sent != [] {
      StreamNext(rp.down, sent[0]);
      assert rp.down + sent == rp.down + [sent[0]];
    } else {
      assert rp.down + sent == rp.down;
    }
    FlowBegins(sp.up, sp.upDone, rp.down + sent, Linked(o.store, s, r), rp.serverOpen);
  }

  /** Sender and receiver of a claim, after the message. */
  ghost predicate FlowAfter(o: Outcome, c: Conn, s: Conn, r: Conn, sp: Peer, rp: Peer) {
    sp.role.Sender? && rp.role.Receiver? ==>
      var sq, rq := PeerNext(sp, s, c, o.posts), PeerNext(rp, r, c, o.posts);
      && rq.role.code == sq.role.pre.phrase
      && Flow(Linked(o.store, s, r), sq.up, sq.upDone, rq.down, rq.serverOpen)
  }

  lemma OwnFlowNext(st: Store, open: set<Conn>, o: Outcome, s: Conn, r: Conn, sp: Peer, rp: Peer)
    requires sp.role.Sender? && 0 < sp.upDone < |sp.up| && |o.posts| <= 1
    requires forall m :: m in sp.up[1..] ==> m.id == CHUNK || m.id == FINAL_CHUNK
    requires rp.role.Receiver? && rp.role.code == sp.role.pre.phrase && s != r
    requires Flow(Linked(st, s, r), sp.up, sp.upDone, rp.down, rp.serverOpen)
    requires RelaySees(st, open, o, s, sp.up[sp.upDone], r) && (rp.serverOpen <==> r in open)
    ensures FlowAfter(o, s, s, r, sp, rp)
  {
    FlowNextOwn(st, open, o, s, r, sp.up, sp.upDone, rp);
    PeerNextFields(sp, s, s, o.posts);
    PeerNextFields(rp, r, s, o.posts);
  }

  lemma OtherFlowNext(h: HashFn, st: Store, o: Outcome, c: Conn, m: Message, claims: map<Conn, Conn>,
                      s: Conn, r: Conn, sp: Peer, rp: Peer)
    requires ClientInv(h, sp) && sp.role.Sender? && c != s && |o.posts| <= 1
    requires rp.role.Receiver? && rp.role.code == sp.role.pre.phrase
    requires ReceiverStore(st, claims, r, rp.upDone, rp.down) && r in claims && claims[r] == s
    requires Flow(Linked(st, s, r), sp.up, sp.upDone, rp.down, rp.serverOpen)
    requires ReceiverSees(st, o, c, m, r)
    ensures FlowAfter(o, c, s, r, sp, rp)
  {
    FlowNextOther(h, st, o, c, m, claims, s, r, sp, rp);
    PeerNextFields(sp, s, c, o.posts);
    PeerNextFields(rp, r, c, o.posts);
  }

  lemma OldFlowNext(h: HashFn, w: World, c: Conn, m: Message, o: Outcome, claims: map<Conn, Conn>, s: Conn, r: Conn)
    requires c in w.peers && s in w.peers && r in w.peers && w.peers[s].role.Sender? && w.peers[r].role.Receiver?
    requires ClientInv(h, w.peers[s]) && ServerInv(w, r, w.peers[r]) && FlowInv(w, r, w.peers[r])
    requires Effects(w, c, m, o, claims) && r in w.claims && w.claims[r] == s
    ensures FlowAfter(o, c, s, r, w.peers[s], w.peers[r])
  {
    if c == s {
      assert RelaySees(w.store, OpenSet(w.peers), o, s, m, r);
      SenderContent(h, w.peers[s]);
      OwnFlowNext(w.store, OpenSet(w.peers), o, s, r, w.peers[s], w.peers[r]);
    } else {
      assert ReceiverSees(w.store, o, c, m, r);
      OtherFlowNext(h, w.store, o, c, m, w.claims, s, r, w.peers[s], w.peers[r]);
    }
  }

  lemma NewFlowNext(h: HashFn, w: World, r: Conn, m: Message, o: Outcome, claims: map<Conn, Conn>, s: Conn)
    requires Chained(w.store) && s in w.peers && r in w.peers && w.peers[s].role.Sender? && w.peers[r].role.Receiver?
    requires ClientInv(h, w.peers[s]) && ServerInv(w, s, w.peers[s])
    requires ClientInv(h, w.peers[r]) && ServerInv(w, r, w.peers[r])
    requires Effects(w, r, m, o, claims) && r in claims && r !in w.claims && claims[r] == s
    ensures FlowAfter(o, r, s, r, w.peers[s], w.peers[r])
  {
    var sp, rp := w.peers[s], w.peers[r];
    PeerNextFields(sp, s, r, o.posts);
    PeerNextFields(rp, r, r, o.posts);
    FlowNextNew(h, w.store, o, s, r, sp, rp);
  }

  lemma FlowNext(h: HashFn, w: World, c: Conn, m: Message, o: Outcome, claims: map<Conn, Conn>, r: Conn)
    requires Inv(h, w) && c in w.peers && r in w.peers && Effects(w, c, m, o, claims)
    requires w.peers[r].role.Receiver? && r in claims
    ensures claims[r] in w.peers && FlowAfter(o, c, claims[r], r, w.peers[claims[r]], w.peers[r])
  {
    var s := claims[r];
    assert FlowInv(w, r, w.peers[r]) && ServerInv(w, r, w.peers[r]) && ClientInv(h, w.peers[r]);
    if r in w.claims {
      assert w.claims[r] == s;
      assert ClientInv(h, w.peers[s]);
      if w.peers[s].role.Sender? {
        OldFlowNext(h, w, c, m, o, claims, s, r);
      }
    } else {
      assert s in w.store.contexts;
      assert ClientInv(h, w.peers[s]) && ServerInv(w, s, w.peers[s]);
      if w.peers[s].role.Sender? {
        NewFlowNext(h, w, r, m, o, claims, s);
      }
    }
  }

  lemma ConfirmedNow(h: HashFn, st: Store, claims: map<Conn, Conn>, m: Message, c: Conn, p: Peer)
    requires ClientInv(h, p) && p.role.Receiver? && ReceiverStore(st, claims, c, p.upDone, p.down)
    requires p.upDone < |p.up| && m == p.up[p.upDone] && m.id == FINISH_RECEIVE && c in st.pairs.right
    ensures c in claims && claims[c] == st.pairs.right[c] && p.role.rpc == Confirmed
  {
    ReceiverHead(p.role, p.up, p.clientOpen, p.upDone);
  }

  /** The confirmation of s that this message brings. */
  lemma ConfirmsNow(h: HashFn, w: World, c: Conn, m: Message, o: Outcome, claims: map<Conn, Conn>, s: Conn)
    requires c in w.peers && ClientInv(h, w.peers[c]) && ServerInv(w, c, w.peers[c])
    requires w.peers[c].upDone < |w.peers[c].up| && m == w.peers[c].up[w.peers[c].upDone] && m.id == FINISH_RECEIVE
    requires SentTo(o.posts, s) && o.posts[0].msg.id == SUCCESS
    requires c in w.store.pairs.right && w.store.pairs.right[c] == s
    requires ClaimedEffects(w, c, o, claims)
    ensures ConfirmInv(Next(w, c, o, claims), s)
  {
    PeerNextFields(w.peers[c], c, c, o.posts);
    if w.peers[c].role.Receiver? {
      ConfirmedNow(h, w.store, w.claims, m, c, w.peers[c]);
    }
  }

  /** An earlier one. */
  lemma StaysConfirmed(w: World, c: Conn, o: Outcome, claims: map<Conn, Conn>, s: Conn)
    requires c in w.peers && ConfirmInv(w, s) && ClaimedEffects(w, c, o, claims)
    requires !(SentTo(o.posts, s) && o.posts[0].msg.id == SUCCESS)
    ensures ConfirmInv(Next(w, c, o, claims), s)
  {
    if s in w.confirmed {
      PeerNextFields(w.peers[w.confirmed[s]], w.confirmed[s], c, o.posts);
    }
  }

  lemma ConfirmNext(h: HashFn, w: World, c: Conn, m: Message, o: Outcome, claims: map<Conn, Conn>, s: Conn)
    requires c in w.peers && ClientInv(h, w.peers[c]) && ServerInv(w, c, w.peers[c])
    requires ConfirmInv(w, s) && Effects(w, c, m, o, claims)
    ensures ConfirmInv(Next(w, c, o, claims), s)
  {
    if SentTo(o.posts, s) && o.posts[0].msg.id == SUCCESS {
      ConfirmsNow(h, w, c, m, o, claims, s);
    } else {
      StaysConfirmed(w, c, o, claims, s);
    }
  }

  lemma PeersNext(h: HashFn, w: World, c: Conn, m: Message, o: Outcome, claims: map<Conn, Conn>, x: Conn)
    requires Inv(h, w) && c in w.peers && x in w.peers && Effects(w, c, m, o, claims)
    ensures var q := PeerNext(w.peers[x], x, c, o.posts);
            ClientInv(h, q) && ServerInv(Next(w, c, o, claims), x, q)
  {
    assert ClientInv(h, w.peers[x]) && ServerInv(w, x, w.peers[x]);
    if w.peers[x].role.Sender? {
      SenderNext(h, w, c, m, o, claims, x);
    } else {
      ReceiverNext(h, w, c, m, o, claims, x);
    }
  }

  /** The connections that the storage knows are all there. */
  ghost predicate StoreKnown(st: Store, peers: set<Conn>) {
    && (forall x :: x in st.contexts ==> x in peers)
    && (forall s :: s in st.sessions ==> st.sessions[s] in peers)
    && (forall x :: x in st.pairs.right ==> x in peers)
  }

  lemma StoreKnownNext(st: Store, st': Store, c: Conn, peers: set<Conn>)
    requires StoreKnown(st, peers) && Grows(st, st', c) && c in peers
    ensures StoreKnown(st', peers)
  {
  }

  ghost predicate HistoryKnown(claims: map<Conn, Conn>, confirmed: map<Conn, Conn>, peers: set<Conn>) {
    && (forall x :: x in claims ==> x in peers)
    && (forall x :: x in confirmed ==> x in peers)
  }

  lemma HistoryKnownNext(claims: map<Conn, Conn>, claims': map<Conn, Conn>, confirmed: map<Conn, Conn>,
                         c: Conn, posts: seq<Post>, peers: set<Conn>)
    requires HistoryKnown(claims, confirmed, peers) && SameElsewhere(claims, claims', c) && c in peers
    requires posts != [] && posts[0].msg.id == SUCCESS ==> posts[0].to in peers
    ensures HistoryKnown(claims', NextConfirmed(confirmed, c, posts), peers)
  {
  }

  lemma DomainsNext(h: HashFn, w: World, c: Conn, m: Message, o: Outcome, claims: map<Conn, Conn>)
    requires Inv(h, w) && c in w.peers && Effects(w, c, m, o, claims)
    ensures StoreKnown(o.store, w.peers.Keys)
    ensures HistoryKnown(claims, NextConfirmed(w.confirmed, c, o.posts), w.peers.Keys)
  {
    StoreKnownNext(w.store, o.store, c, w.peers.Keys);
    HistoryKnownNext(w.claims, claims, w.confirmed, c, o.posts, w.peers.Keys);
  }

  lemma FlowInvNext(h: HashFn, w: World, c: Conn, m: Message, o: Outcome, claims: map<Conn, Conn>, r: Conn)
    requires Inv(h, w) && c in w.peers && r in w.peers && Effects(w, c, m, o, claims)
    ensures FlowInv(Next(w, c, o, claims), r, PeerNext(w.peers[r], r, c, o.posts))
  {
    PeerNextFields(w.peers[r], r, c, o.posts);
    if w.peers[r].role.Receiver? && r in claims {
      FlowNext(h, w, c, m, o, claims, r);
      PeerNextFields(w.peers[claims[r]], claims[r], c, o.posts);
    }
  }

  lemma ConfirmInvNext(h: HashFn, w: World, c: Conn, m: Message, o: Outcome, claims: map<Conn, Conn>, s: Conn)
    requires Inv(h, w) && c in w.peers && s in w.peers && w.peers[s].role.Sender? && Effects(w, c, m, o, claims)
    ensures ConfirmInv(Next(w, c, o, claims), s)
  {
    assert ConfirmInv(w, s) && ClientInv(h, w.peers[c]) && ServerInv(w, c, w.peers[c]);
    ConfirmNext(h, w, c, m, o, claims, s);
  }

  lemma NextRoles(w: World, c: Conn, o: Outcome, claims: map<Conn, Conn>)
    ensures var w' := Next(w, c, o, claims);
            && w'.peers.Keys == w.peers.Keys
            && forall x :: x in w.peers ==>
                 w'.peers[x] == PeerNext(w.peers[x], x, c, o.posts) && w'.peers[x].role == w.peers[x].role
  {
  }

  /** The invariant, put together from what holds of each connection. */
  lemma Assembled(h: HashFn, w: World)
    requires Chained(w.store)
    requires forall x :: x in w.store.contexts ==> x in w.peers
    requires forall x :: x in w.claims ==> x in w.peers
    requires forall x :: x in w.confirmed ==> x in w.peers
    requires forall s :: s in w.store.sessions ==> w.store.sessions[s] in w.peers
    requires forall x :: x in w.store.pairs.right ==> x in w.peers
    requires forall x :: x in w.peers ==> ClientInv(h, w.peers[x]) && ServerInv(w, x, w.peers[x])
    requires forall x :: x in w.peers ==> FlowInv(w, x, w.peers[x])
    requires forall x :: x in w.peers && w.peers[x].role.Sender? ==> ConfirmInv(w, x)
    ensures Inv(h, w)
  {
  }

  lemma NextKeepsInv(h: HashFn, w: World, c: Conn, m: Message, o: Outcome, claims: map<Conn, Conn>)
    requires Inv(h, w) && c in w.peers && Effects(w, c, m, o, claims)
    ensures Inv(h, Next(w, c, o, claims))
  {
    var w' := Next(w, c, o, claims);
    NextRoles(w, c, o, claims);
    DomainsNext(h, w, c, m, o, claims);
    forall x | x in w.peers ensures ClientInv(h, w'.peers[x]) && ServerInv(w', x, w'.peers[x]) {
      PeersNext(h, w, c, m, o, claims, x);
    }
    forall r | r in w.peers ensures FlowInv(w', r, w'.peers[r]) {
      FlowInvNext(h, w, c, m, o, claims, r);
    }
    forall s | s in w.peers && w.peers[s].role.Sender? ensures ConfirmInv(w', s) {
      ConfirmInvNext(h, w, c, m, o, claims, s);
    }
    Assembled(h, w');
  }

  lemma HandleKeepsInv(h: HashFn, w: World, c: Conn)
    requires Inv(h, w) && Enabled(w, ServerHandles(c))
    ensures Inv(h, Apply(h, w, ServerHandles(c)))
  {
    var p := w.peers[c];
    var m := p.up[p.upDone];
    assert ClientInv(h, p) && ServerInv(w, c, p) && m in p.up;
    PlainlyHandled(w.store, OpenSet(w.peers), c, m);
    OthersSee(h, w, c, m);
    OwnEffects(h, w, c, m);
    RelayEffects(h, w, c);
    ClaimEffects(h, w, c, m);
    NextKeepsInv(h, w, c, m, Handle(w.store, OpenSet(w.peers), c, m), NextClaims(w.store, w.claims, c, m));
  }

  // ---------- a new connection, and a forgotten one ----------

  lemma InitialClient(h: HashFn, role: Role)
    requires Initial(role)
    ensures ClientInv(h, Peer(role, [], 0, [], 0, true, true))
  {
  }

  /** The server knows nothing of a connection that has just been made. */
  lemma InitialServer(w: World, c: Conn, role: Role)
    requires Chained(w.store) && Initial(role) && c !in w.store.contexts && c !in w.claims
    requires NeverReceives(w.store, c)
    ensures ServerInv(w, c, Peer(role, [], 0, [], 0, true, true))
  {
  }

  /** Only the peers are changed. */
  lemma SameForOthers(w: World, w': World, x: Conn, p: Peer)
    requires ServerInv(w, x, p) && FlowInv(w, x, p)
    requires w' == w.(peers := w'.peers) && forall y :: y in w.peers ==> y in w'.peers && w'.peers[y] == w.peers[y]
    ensures ServerInv(w', x, p) && FlowInv(w', x, p)
    ensures ConfirmInv(w, x) ==> ConfirmInv(w', x)
  {
  }

  /** The world with a connection that has just been made. */
  function WithClient(w: World, c: Conn, role: Role): World {
    w.(peers := w.peers[c := Peer(role, [], 0, [], 0, true, true)])
  }

  lemma JoinKeepsOthers(h: HashFn, w: World, w': World, x: Conn)
    requires Inv(h, w) && x in w.peers && w' == w.(peers := w'.peers)
    requires forall y :: y in w.peers ==> y in w'.peers && w'.peers[y] == w.peers[y]
    ensures ClientInv(h, w.peers[x]) && ServerInv(w', x, w.peers[x]) && FlowInv(w', x, w.peers[x])
    ensures w.peers[x].role.Sender? ==> ConfirmInv(w', x)
  {
    assert ClientInv(h, w.peers[x]) && ServerInv(w, x, w.peers[x]) && FlowInv(w, x, w.peers[x]);
    assert w.peers[x].role.Sender? ==> ConfirmInv(w, x);
    SameForOthers(w, w', x, w.peers[x]);
  }

  lemma JoinKeepsNew(h: HashFn, w: World, c: Conn, role: Role)
    requires Inv(h, w) && c !in w.peers && Initial(role)
    ensures var w' := WithClient(w, c, role);
            && ClientInv(h, w'.peers[c]) && ServerInv(w', c, w'.peers[c]) && FlowInv(w', c, w'.peers[c])
            && (role.Sender? ==> ConfirmInv(w', c))
  {
    InitialClient(h, role);
    InitialServer(WithClient(w, c, role), c, role);
  }

  lemma JoinKeepsInv(h: HashFn, w: World, c: Conn, role: Role)
    requires Inv(h, w) && c !in w.peers && Initial(role)
    ensures Inv(h, Apply(h, w, Join(c, role)))
  {
    var w' := WithClient(w, c, role);
    JoinKeepsNew(h, w, c, role);
    forall x | x in w'.peers
      ensures ClientInv(h, w'.peers[x]) && ServerInv(w', x, w'.peers[x]) && FlowInv(w', x, w'.peers[x])
      ensures w'.peers[x].role.Sender? ==> ConfirmInv(w', x)
    {
      if x != c {
        JoinKeepsOthers(h, w, w', x);
      }
    }
    Assembled(h, w');
  }

  lemma ForgetPeer(w: World, c: Conn, x: Conn, p: Peer)
    requires Chained(w.store) && ServerInv(w, x, p)
    ensures ServerInv(w.(store := w.store.Drop(c)), x, p)
  {
    DropSeen(w.store, c, x);
  }

  lemma ForgetFlow(w: World, c: Conn, r: Conn)
    requires r in w.peers && FlowInv(w, r, w.peers[r])
    ensures FlowInv(w.(store := w.store.Drop(c)), r, w.peers[r])
  {
    if w.peers[r].role.Receiver? && r in w.claims {
      assert Linked(w.store.Drop(c), w.claims[r], r) ==> Linked(w.store, w.claims[r], r);
    }
  }

  lemma ForgetKeepsInv(h: HashFn, w: World, c: Conn)
    requires Inv(h, w) && c in w.peers
    ensures Inv(h, w.(store := w.store.Drop(c)))
  {
    var w' := w.(store := w.store.Drop(c));
    DropChained(w.store, c);
    DropGrows(w.store, c, c);
    forall x | x in w.peers ensures ClientInv(h, w.peers[x]) && ServerInv(w', x, w.peers[x]) {
      assert ServerInv(w, x, w.peers[x]);
      ForgetPeer(w, c, x, w.peers[x]);
    }
    forall r | r in w.peers ensures FlowInv(w', r, w.peers[r]) {
      ForgetFlow(w, c, r);
    }
    forall s | s in w.peers && w.peers[s].role.Sender? ensures ConfirmInv(w', s) {
      assert ConfirmInv(w, s);
    }
    Assembled(h, w');
  }

  // ---------- every step, every run ----------

  lemma ClientStepKeeps(h: HashFn, w: World, a: Action, p: Peer)
    requires CanStep(p, a) && !a.ServerHandles? && !a.ServerForgets?
    requires ClientInv(h, p) && ServerInv(w, a.c, p)
    ensures ClientInv(h, ClientStep(h, p, a)) && ClientMoves(p, ClientStep(h, p, a))
  {
    match a
    case SenderSends(_) => SenderSendsKeeps(h, p, a);
    case SenderReads(_) => SenderReadsKeeps(h, p);
    case SenderEnds(_) => SenderEndsKeeps(h, p, a);
    case ReceiverAsks(_) => ReceiverAsksKeeps(h, p, a);
    case ReceiverAnswers(_, _) => ReceiverAnswersKeeps(h, p, a);
    case ReceiverOpens(_, _) => ReceiverOpensKeeps(h, p, a);
    case ReceiverConfirms(_) => ReceiverConfirmsKeeps(h, p, a);
    case Pops(_, kept) => PopsKeep(h, w, a.c, p, kept);
    case ClientCloses(_) => OtherStepsKeep(h, p, a);
    case ServerCloses(_) => OtherStepsKeep(h, p, a);
    case RogueSends(_, _) => OtherStepsKeep(h, p, a);
    case QueueEmpty(_, _) => OtherStepsKeep(h, p, a);
  }

  lemma PopsKeep(h: HashFn, w: World, c: Conn, p: Peer, kept: nat)
    requires CanPop(p) && ClientInv(h, p) && ServerInv(w, c, p)
    ensures ClientInv(h, PopsNext(h, p, kept)) && ClientMoves(p, PopsNext(h, p, kept))
  {
    if p.role.Sender? {
      SenderPopsKeeps(h, p, kept);
    } else if p.role.Receiver? {
      if p.role.rpc == Looping {
        LoopPopsKeeps(h, p, kept);
      } else {
        assert |p.up| <= 1;
        ReplyPopsKeeps(h, p, kept);
      }
    }
  }

  lemma OwnStepKeepsInv(h: HashFn, w: World, a: Action)
    requires Inv(h, w) && Enabled(w, a) && !a.Join? && !a.ServerHandles? && !a.ServerForgets?
    ensures Inv(h, Apply(h, w, a))
  {
    assert ClientInv(h, w.peers[a.c]) && ServerInv(w, a.c, w.peers[a.c]);
    ClientStepKeeps(h, w, a, w.peers[a.c]);
    MoveKeepsInv(h, w, a.c, ClientStep(h, w.peers[a.c], a));
  }

  lemma StepKeepsInv(h: HashFn, w: World, a: Action)
    requires Inv(h, w) && Enabled(w, a)
    ensures Inv(h, Apply(h, w, a))
  {
    if a.Join? {
      JoinKeepsInv(h, w, a.c, a.role);
    } else if a.ServerHandles? {
      HandleKeepsInv(h, w, a.c);
    } else if a.ServerForgets? {
      ForgetKeepsInv(h, w, a.c);
    } else {
      OwnStepKeepsInv(h, w, a);
    }
  }

  lemma {:induction false} RunKeepsInv(h: HashFn, run: seq<World>, actions: seq<Action>, i: nat)
    requires IsRun(h, run, actions) && i <= |actions|
    ensures Inv(h, run[i])
  {
    if i > 0 {
      RunKeepsInv(h, run, actions, i - 1);
      StepKeepsInv(h, run[i - 1], actions[i - 1]);
    }
  }

  lemma ReachableInv(h: HashFn, w: World)
    requires Reachable(h, w)
    ensures Inv(h, w)
  {
    var run, actions :| IsRun(h, run, actions) && run[|actions|] == w;
    RunKeepsInv(h, run, actions, |actions|);
  }
}
