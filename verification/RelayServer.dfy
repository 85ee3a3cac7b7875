/** Why a message handled by the server keeps the invariant of the relay. */
module RelayServer {
  import opened Bytes
  import opened NetMessage
  import opened Codec
  import opened Server
  import opened ServerProofs
  import opened Sessions
  import opened Relay
  import opened RelayInvariant

  // ---------- what the programs have sent ----------

  lemma {:induction false} ChunkIds(h: HashFn, file: seq<byte>, i: nat)
    requires i < |ChunkMessages(h, file, MAX_CHUNK)|
    ensures ChunkMessages(h, file, MAX_CHUNK)[i].id == CHUNK
    decreases |file|
  {
    if i > 0 {
      ChunkIds(h, file[ReadCount(file, MAX_CHUNK)..], i - 1);
    }
  }

  lemma SenderUpIsScript(h: HashFn, role: Role, up: seq<Message>, open: bool)
    requires role.Sender? && SenderScript(h, role, up, open)
    ensures up <= Script(h, role.pre, role.file)
  {
    if role.pc == Sending {
      assert up <= up + Contents(h, role.rest);
    }
  }

  lemma SenderHead(h: HashFn, role: Role, up: seq<Message>, open: bool, i: nat)
    requires role.Sender? && SenderScript(h, role, up, open) && i < |up|
    ensures i == 0 ==> up[i] == SendMessage(role.pre)
    ensures i > 0 ==> up[i].id == CHUNK || up[i].id == FINAL_CHUNK
  {
    SenderUpIsScript(h, role, up, open);
    var chunks := ChunkMessages(h, role.file, MAX_CHUNK);
    assert up[i] == Script(h, role.pre, role.file)[i];
    if 0 < i <= |chunks| {
      ChunkIds(h, role.file, i - 1);
    }
  }

  lemma ReceiverHead(role: Role, up: seq<Message>, open: bool, i: nat)
    requires role.Receiver? && ReceiverScript(role, up, open) && i < |up|
    ensures i <= 2
    ensures i == 0 ==> up[i] == Request(role)
    ensures i == 1 ==> up[i] == ClaimMessage(role.code)
    ensures i == 2 ==> up[i].id == FAILED_RECEIVE || (up[i].id == FINISH_RECEIVE && role.rpc == Confirmed)
  {
  }

  // ---------- the handlers, seen from one connection ----------

  lemma AtMostOnePost(st: Store, open: set<Conn>, c: Conn, m: Message)
    requires Decodable(m)
    ensures |Handle(st, open, c, m).posts| <= 1
  {
    if c in st.sessions {
      SessionPostsOnce(st, open, c, m);
    } else if m.id == RECEIVE {
      ClaimPostsOnce(st, open, c, m);
    }
  }

  lemma SessionPostsOnce(st: Store, open: set<Conn>, c: Conn, m: Message)
    requires c in st.sessions
    ensures |OnSessioned(st, open, c, m).posts| <= 1
  {
  }

  lemma ClaimPostsOnce(st: Store, open: set<Conn>, c: Conn, m: Message)
    requires DecodePhrase(m.body).Popped?
    ensures |OnReceive(st, open, c, m).posts| <= 1
  {
  }

  /** Only FinishReceive of a recorded receiver produces a Success. */
  lemma SuccessFrom(st: Store, open: set<Conn>, c: Conn, m: Message)
    requires Decodable(m)
    ensures var posts := Handle(st, open, c, m).posts;
            posts != [] && posts[0].msg.id == SUCCESS ==>
              && m.id == FINISH_RECEIVE && c !in st.sessions
              && c in st.pairs.right && posts[0].to == st.pairs.right[c]
  {
    if c in st.sessions {
      NoSuccessInSession(st, open, c, m);
    }
  }

  lemma NoSuccessInSession(st: Store, open: set<Conn>, c: Conn, m: Message)
    requires c in st.sessions
    ensures var posts := OnSessioned(st, open, c, m).posts; posts != [] ==> posts[0].msg.id != SUCCESS
  {
  }

  lemma DropSeen(st: Store, s: Conn, x: Conn)
    requires st.phrases.Valid() && st.pairs.Valid()
    ensures var next := st.Drop(s);
            && (NeverReceives(st, x) ==> NeverReceives(next, x))
            && (x in next.contexts ==> x in st.contexts && next.contexts[x] == st.contexts[x])
            && (x in next.phrases.left <==> x in st.phrases.left && x != s)
            && (x in next.sessions <==> x in st.sessions && x != s)
            && (x in next.sessions ==> next.sessions[x] == st.sessions[x])
            && (x in next.pairs.right ==> x in st.pairs.right && next.pairs.right[x] == st.pairs.right[x])
  {
    EraseValid(st.phrases, s);
    EraseValid(st.pairs, s);
  }

  /** What other connections can do to a sender that is never a sink: give it a session with an
      Accept, confirm and drop it, or abort and drop it. */
  ghost predicate SenderSees(st: Store, open: set<Conn>, o: Outcome, c: Conn, x: Conn) {
    && NeverReceives(o.store, x)
    && (x in o.store.contexts ==> x in st.contexts && o.store.contexts[x] == st.contexts[x])
    && (x in o.store.phrases.left ==> x in st.phrases.left)
    && (x in o.store.phrases.left && x in st.sessions ==> x in o.store.sessions)
    && (x in o.store.sessions && x !in st.sessions && x in open ==> SentTo(o.posts, x))
    && (SentTo(o.posts, x) ==>
          || (x in st.contexts && o.posts[0].msg == AcceptMessage(st.contexts[x].post) && x in o.store.sessions)
          || (o.posts[0].msg == Control(SUCCESS) && x !in o.store.phrases.left && x in st.sessions
              && c in st.pairs.right && st.pairs.right[c] == x))
  }

  lemma AbruptlySeen(st: Store, open: set<Conn>, s: Conn, c: Conn, x: Conn)
    requires Chained(st) && NeverReceives(st, x)
    ensures SenderSees(st, open, RemoveAbruptly(st, open, s), c, x)
  {
    DropSeen(st, s, x);
  }

  lemma SessionedSeen(st: Store, open: set<Conn>, c: Conn, m: Message, x: Conn)
    requires Chained(st) && NeverReceives(st, x) && c in st.sessions
    ensures SenderSees(st, open, OnSessioned(st, open, c, m), c, x)
  {
    AbruptlySeen(st, open, c, c, x);
  }

  lemma SendSeen(st: Store, open: set<Conn>, c: Conn, m: Message, x: Conn)
    requires Chained(st) && NeverReceives(st, x) && c !in st.sessions && x != c && DecodePre(m.body).Popped?
    ensures SenderSees(st, open, OnSend(st, open, c, m), c, x)
  {
    EraseValid(st.phrases, c);
  }

  lemma ClaimSeen(st: Store, open: set<Conn>, c: Conn, m: Message, x: Conn)
    requires Chained(st) && NeverReceives(st, x) && x != c && DecodePhrase(m.body).Popped?
    ensures SenderSees(st, open, OnReceive(st, open, c, m), c, x)
  {
    var code := DecodePhrase(m.body).value.code;
    if code in st.phrases.right {
      var s := st.phrases.right[code];
      if s in st.contexts {
        SessionSeen(st, open, s, c, x);
      } else {
        AbruptlySeen(st, open, s, c, x);
      }
    }
  }

  lemma SessionSeen(st: Store, open: set<Conn>, s: Conn, c: Conn, x: Conn)
    requires Chained(st) && NeverReceives(st, x) && x != c && s in st.contexts
    ensures SenderSees(st, open, Outcome(st.AddSession(s, c), Offer(open, s, AcceptMessage(st.contexts[s].post)), []),
                       c, x)
  {
  }

  lemma FinishSeen(st: Store, open: set<Conn>, c: Conn, x: Conn)
    requires Chained(st) && NeverReceives(st, x)
    ensures SenderSees(st, open, OnFinish(st, open, c), c, x)
  {
    if c in st.pairs.right {
      DropSeen(st, st.pairs.right[c], x);
      assert st.pairs.right[c] in st.pairs.left;
    }
  }

  lemma HandleSeenBySender(st: Store, open: set<Conn>, c: Conn, m: Message, x: Conn)
    requires Chained(st) && NeverReceives(st, x) && x != c && Decodable(m)
    ensures SenderSees(st, open, Handle(st, open, c, m), c, x)
  {
    if c in st.sessions {
      SessionedSeen(st, open, c, m, x);
    } else if m.id == SEND {
      SendSeen(st, open, c, m, x);
    } else if m.id == RECEIVE {
      ClaimSeen(st, open, c, m, x);
    } else if m.id == FINISH_RECEIVE {
      FinishSeen(st, open, c, x);
    } else if m.id == FAILED_RECEIVE && c in st.pairs.right {
      AbruptlySeen(st, open, st.pairs.right[c], c, x);
    }
  }

  /** What other connections can do to a receiver that is never a sender: relay to it in the
      session it is the sink of, or abort that session. */
  ghost predicate ReceiverSees(st: Store, o: Outcome, c: Conn, m: Message, x: Conn) {
    && (x in o.store.contexts ==> x in st.contexts)
    && (forall s :: s in o.store.sessions && o.store.sessions[s] == x ==> s in st.sessions && st.sessions[s] == x)
    && (x in o.store.pairs.right ==> x in st.pairs.right && o.store.pairs.right[x] == st.pairs.right[x])
    && (SentTo(o.posts, x) && IsStream(o.posts[0].msg) ==>
          || (Linked(st, c, x) && o.posts[0].msg == m && m.id != ABORT && o.store == st)
          || (o.posts[0].msg == Control(ABORT)
              && exists s :: Linked(st, s, x) && s !in o.store.sessions))
  }

  lemma AbruptlySeenBySink(st: Store, open: set<Conn>, s: Conn, c: Conn, m: Message, x: Conn)
    requires Chained(st)
    ensures ReceiverSees(st, RemoveAbruptly(st, open, s), c, m, x)
  {
    DropSeen(st, s, x);
    var o := RemoveAbruptly(st, open, s);
    if SentTo(o.posts, x) {
      assert Linked(st, s, x) && s !in o.store.sessions;
    }
  }

  lemma SessionedSeenBySink(st: Store, open: set<Conn>, c: Conn, m: Message, x: Conn)
    requires Chained(st) && c in st.sessions
    ensures ReceiverSees(st, OnSessioned(st, open, c, m), c, m, x)
  {
    AbruptlySeenBySink(st, open, c, c, m, x);
  }

  lemma FinishSeenBySink(st: Store, open: set<Conn>, c: Conn, m: Message, x: Conn)
    requires Chained(st)
    ensures ReceiverSees(st, OnFinish(st, open, c), c, m, x)
  {
    if c in st.pairs.right {
      DropSeen(st, st.pairs.right[c], x);
    }
  }

  lemma SendSeenBySink(st: Store, open: set<Conn>, c: Conn, m: Message, x: Conn)
    requires Chained(st) && c !in st.sessions && x != c && DecodePre(m.body).Popped?
    ensures ReceiverSees(st, OnSend(st, open, c, m), c, m, x)
  {
  }

  lemma RequestSeenBySink(st: Store, open: set<Conn>, c: Conn, m: Message, x: Conn)
    requires Chained(st) && DecodePre(m.body).Popped?
    ensures ReceiverSees(st, OnRequestReceive(st, open, c, m), c, m, x)
  {
  }

  lemma ClaimSeenBySink(st: Store, open: set<Conn>, c: Conn, m: Message, x: Conn)
    requires Chained(st) && x != c && DecodePhrase(m.body).Popped?
    ensures ReceiverSees(st, OnReceive(st, open, c, m), c, m, x)
  {
    var code := DecodePhrase(m.body).value.code;
    if code in st.phrases.right {
      var s := st.phrases.right[code];
      if s in st.contexts {
        SessionSeenBySink(st, s, c, Offer(open, s, AcceptMessage(st.contexts[s].post)), m, x);
      } else {
        AbruptlySeenBySink(st, open, s, c, m, x);
      }
    }
  }

  lemma SessionSeenBySink(st: Store, s: Conn, c: Conn, posts: seq<Post>, m: Message, x: Conn)
    requires Chained(st) && x != c && (posts != [] ==> posts[0].msg.id == ACCEPT)
    ensures ReceiverSees(st, Outcome(st.AddSession(s, c), posts, []), c, m, x)
  {
  }

  lemma HandleSeenByReceiver(st: Store, open: set<Conn>, c: Conn, m: Message, x: Conn)
    requires Chained(st) && Decodable(m)
    requires x == c ==> c !in st.sessions && m.id != SEND && m.id != RECEIVE
    ensures ReceiverSees(st, Handle(st, open, c, m), c, m, x)
  {
    if c in st.sessions {
      SessionedSeenBySink(st, open, c, m, x);
    } else if m.id == SEND {
      SendSeenBySink(st, open, c, m, x);
    } else if m.id == REQUEST_RECEIVE {
      RequestSeenBySink(st, open, c, m, x);
    } else if m.id == RECEIVE {
      ClaimSeenBySink(st, open, c, m, x);
    } else if m.id == FINISH_RECEIVE {
      FinishSeenBySink(st, open, c, m, x);
    } else if m.id == FAILED_RECEIVE && c in st.pairs.right {
      AbruptlySeenBySink(st, open, st.pairs.right[c], c, m, x);
    }
  }

  lemma AcceptShort(context: Context)
    requires WellFormed(context)
    ensures |AcceptMessage(context.post).body| < TWO32
  {
  }

  lemma SessionPostsShort(st: Store, open: set<Conn>, c: Conn, m: Message)
    requires c in st.sessions && |m.body| < TWO32
    ensures var posts := OnSessioned(st, open, c, m).posts; posts != [] ==> |posts[0].msg.body| < TWO32
  {
  }

  lemma ClaimPostsShort(st: Store, open: set<Conn>, c: Conn, m: Message)
    requires Chained(st) && DecodePhrase(m.body).Popped?
    ensures var posts := OnReceive(st, open, c, m).posts; posts != [] ==> |posts[0].msg.body| < TWO32
  {
    var code := DecodePhrase(m.body).value.code;
    if code in st.phrases.right && st.phrases.right[code] in st.contexts {
      AcceptShort(st.contexts[st.phrases.right[code]]);
    }
  }

  lemma RequestPostsShort(st: Store, open: set<Conn>, c: Conn, m: Message)
    requires Chained(st) && DecodePre(m.body).Popped?
    ensures var posts := OnRequestReceive(st, open, c, m).posts; posts != [] ==> |posts[0].msg.body| < TWO32
  {
    var code := DecodePre(m.body).value.phrase.code;
    if code in st.phrases.right && st.phrases.right[code] in st.contexts {
      AcceptShort(st.contexts[st.phrases.right[code]]);
    }
  }

  lemma OtherPostsShort(st: Store, open: set<Conn>, c: Conn, m: Message)
    requires Decodable(m) && c !in st.sessions && m.id != RECEIVE && m.id != REQUEST_RECEIVE
    ensures var posts := Handle(st, open, c, m).posts; posts != [] ==> |posts[0].msg.body| < TWO32
  {
  }

  lemma PostsShort(st: Store, open: set<Conn>, c: Conn, m: Message)
    requires Chained(st) && Fit(m)
    ensures var posts := Handle(st, open, c, m).posts; posts != [] ==> |posts[0].msg.body| < TWO32
  {
    if c in st.sessions {
      SessionPostsShort(st, open, c, m);
    } else if m.id == RECEIVE {
      ClaimPostsShort(st, open, c, m);
    } else if m.id == REQUEST_RECEIVE {
      RequestPostsShort(st, open, c, m);
    } else {
      OtherPostsShort(st, open, c, m);
    }
  }

  /** Whatever is sent to anyone fits a frame, and a chunk in it holds a digest. */
  lemma PostsSound(st: Store, open: set<Conn>, c: Conn, m: Message)
    requires Chained(st) && Fit(m)
    ensures var posts := Handle(st, open, c, m).posts; posts != [] ==> Sound(posts[0].msg)
  {
    var e := Handled(c, m, open);
    var posts := React(st, e).posts;
    PostsShort(st, open, c, m);
    if posts != [] && posts[0].msg.id == CHUNK {
      assert posts[0] in posts;
      RelayedChunksDecode(st, e, posts[0]);
    }
  }

  // ---------- the connections after a message ----------

  lemma AcceptAnnounces(context: Context)
    requires WellFormed(context)
    ensures AnnouncesLimit(AcceptMessage(context.post))
  {
    PostRoundTrip([], context.post);
    assert [] + EncodePost(context.post) == EncodePost(context.post);
  }

  /** One message more on the channel to a client leaves what the client did as it was. */
  lemma DeliveredClient(h: HashFn, p: Peer, q: Peer, c: Conn, posts: seq<Post>)
    requires ClientInv(h, p) && (posts != [] ==> Sound(posts[0].msg))
    requires q == p || (q == p.(upDone := p.upDone + 1) && p.upDone < |p.up|)
    requires p.role.Sender? && SentTo(posts, c) ==>
               && (posts[0].msg.id == ACCEPT || posts[0].msg.id == SUCCESS)
               && (posts[0].msg.id == ACCEPT ==> AnnouncesLimit(posts[0].msg))
               && (p.down == [] ==> posts[0].msg.id == ACCEPT)
    ensures ClientInv(h, Delivered(q, c, posts))
  {
    if SentTo(posts, c) {
      assert (p.down + [posts[0].msg])[..p.downDone] == p.down[..p.downDone];
    }
  }

  lemma OtherSenderStore(st: Store, open: set<Conn>, o: Outcome, c: Conn, x: Conn, p: Peer)
    requires SenderSees(st, open, o, c, x) && Domains(st) && p.role.Sender? && x != c
    requires SenderStore(st, x, p.role.pre, p.upDone, p.down, p.serverOpen)
    requires p.serverOpen ==> x in open
    ensures var q := Delivered(p, x, o.posts); SenderStore(o.store, x, p.role.pre, q.upDone, q.down, q.serverOpen)
  {
  }

  lemma OtherSenderGets(st: Store, open: set<Conn>, o: Outcome, c: Conn, x: Conn, p: Peer)
    requires SenderSees(st, open, o, c, x) && p.role.Sender? && SentTo(o.posts, x)
    requires forall s :: s in st.contexts ==> WellFormed(st.contexts[s])
    requires SenderStore(st, x, p.role.pre, p.upDone, p.down, p.serverOpen)
    requires p.serverOpen
    ensures o.posts[0].msg.id == ACCEPT || o.posts[0].msg.id == SUCCESS
    ensures o.posts[0].msg.id == ACCEPT ==> AnnouncesLimit(o.posts[0].msg)
    ensures p.down == [] ==> o.posts[0].msg.id == ACCEPT
  {
    if x in st.contexts {
      AcceptAnnounces(st.contexts[x]);
    }
  }

  /** A message is only ever sent to a connection that is open. */
  lemma PostsGoToOpen(st: Store, open: set<Conn>, c: Conn, m: Message)
    requires Decodable(m)
    ensures var posts := Handle(st, open, c, m).posts; posts != [] ==> posts[0].to in open
  {
    if c in st.sessions {
      SessionPostsGoToOpen(st, open, c, m);
    } else if m.id == RECEIVE {
      ClaimPostsGoToOpen(st, open, c, m);
    } else {
      OtherPostsGoToOpen(st, open, c, m);
    }
  }

  lemma SessionPostsGoToOpen(st: Store, open: set<Conn>, c: Conn, m: Message)
    requires c in st.sessions
    ensures var posts := OnSessioned(st, open, c, m).posts; posts != [] ==> posts[0].to in open
  {
  }

  lemma ClaimPostsGoToOpen(st: Store, open: set<Conn>, c: Conn, m: Message)
    requires DecodePhrase(m.body).Popped?
    ensures var posts := OnReceive(st, open, c, m).posts; posts != [] ==> posts[0].to in open
  {
  }

  lemma OtherPostsGoToOpen(st: Store, open: set<Conn>, c: Conn, m: Message)
    requires Decodable(m) && c !in st.sessions && m.id != RECEIVE
    ensures var posts := Handle(st, open, c, m).posts; posts != [] ==> posts[0].to in open
  {
  }
}
