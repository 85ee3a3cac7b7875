/** How a receiver is answered: first by the server's reply to its request, then only by what belongs
    to its transfer; and what it does about either. */
module Replies {
  import opened Bytes
  import opened NetMessage
  import opened Codec
  import opened Server
  import opened ServerProofs
  import opened Sessions
  import opened Disks
  import opened Integrity
  import opened Relay
  import opened RelayInvariant
  import opened RelayServer
  import opened RelayRuns

  // ---------- what a receiver is sent ----------

  predicate IsReply(m: Message) {
    m.id == REJECT || (m.id == ACCEPT && AnnouncesLimit(m))
  }

  /** Nothing before its request is handled; then the reply, if it can be sent; then only transfer
      messages. */
  ghost predicate Served(down: seq<Message>, upDone: nat, open: bool) {
    && (upDone == 0 ==> down == [])
    && (upDone > 0 && open ==> down != [])
    && (down != [] ==> IsReply(down[0]))
    && (forall i :: 1 <= i < |down| ==> IsStream(down[i]))
  }

  lemma SessionSends(st: Store, open: set<Conn>, c: Conn, m: Message, x: Conn)
    requires c in st.sessions && SentTo(OnSessioned(st, open, c, m).posts, x)
    ensures IsStream(OnSessioned(st, open, c, m).posts[0].msg) && Linked(st, c, x)
  {
  }

  lemma ClaimSends(st: Store, open: set<Conn>, c: Conn, m: Message, x: Conn)
    requires Chained(st) && DecodePhrase(m.body).Popped? && x !in st.contexts
    requires SentTo(OnReceive(st, open, c, m).posts, x)
    ensures c == x && OnReceive(st, open, c, m).posts[0].msg == Control(ABORT)
  {
  }

  lemma OtherSends(st: Store, open: set<Conn>, c: Conn, m: Message, x: Conn)
    requires Chained(st) && Decodable(m) && c !in st.sessions && x !in st.contexts
    requires m.id != REQUEST_RECEIVE && m.id != RECEIVE
    requires SentTo(Handle(st, open, c, m).posts, x)
    ensures IsStream(Handle(st, open, c, m).posts[0].msg) && exists s :: Linked(st, s, x)
  {
    assert c in st.pairs.right && st.pairs.right[c] in st.pairs.left;
    assert m.id == FAILED_RECEIVE ==> Linked(st, st.pairs.right[c], x);
  }

  /** A connection that is no sender is sent, apart from replies to its own requests, nothing but
      transfer messages, and those of others only as the sink of a session. */
  lemma StreamOrNothing(st: Store, open: set<Conn>, c: Conn, m: Message, x: Conn)
    requires Chained(st) && Decodable(m) && x !in st.contexts && (c == x ==> m.id != REQUEST_RECEIVE)
    requires SentTo(Handle(st, open, c, m).posts, x)
    ensures IsStream(Handle(st, open, c, m).posts[0].msg) && (c == x || exists s :: Linked(st, s, x))
  {
    if c in st.sessions {
      SessionSends(st, open, c, m, x);
    } else if m.id == REQUEST_RECEIVE {
      assert false;
    } else if m.id == RECEIVE {
      ClaimSends(st, open, c, m, x);
    } else {
      OtherSends(st, open, c, m, x);
    }
  }

  /** The reply to a request: a Reject exactly if nobody holds the code. */
  lemma RequestReplied(st: Store, open: set<Conn>, r: Conn, code: CodePhrase, junkSize: uint64, junkNameSize: byte)
    requires Chained(st) && code.Sized() && r !in st.contexts
    ensures Decodable(RequestMessage(code, junkSize, junkNameSize))
    ensures var posts := Handle(st, open, r, RequestMessage(code, junkSize, junkNameSize)).posts;
            && |posts| <= 1 && (posts != [] <==> r in open)
            && (posts != [] ==>
                  && posts[0].to == r && IsReply(posts[0].msg)
                  && (posts[0].msg.id == REJECT <==> code.code !in st.phrases.right))
  {
    RequestKeepsCode(0, code, junkSize, junkNameSize);
    RequestFit(code, junkSize, junkNameSize);
    if code.code in st.phrases.right {
      AcceptAnnounces(st.contexts[st.phrases.right[code.code]]);
    }
  }

  lemma ServedMore(down: seq<Message>, upDone: nat, upDone': nat, open: bool, sent: seq<Message>)
    requires Served(down, upDone, open) && upDone <= upDone' && |sent| <= 1
    requires upDone > 0 || (upDone' == 0 && sent == []) || (upDone' > 0 && if open then sent != [] else sent == [])
    requires sent != [] ==> if upDone == 0 then IsReply(sent[0]) else open && IsStream(sent[0])
    ensures Served(down + sent, upDone', open)
  {
  }

  lemma ServedAfter(h: HashFn, st: Store, open: set<Conn>, claims: map<Conn, Conn>,
                     c: Conn, m: Message, r: Conn, p: Peer)
    requires Chained(st) && Decodable(m) && ClientInv(h, p) && p.role.Receiver?
    requires ReceiverStore(st, claims, r, p.upDone, p.down) && Served(p.down, p.upDone, p.serverOpen)
    requires (p.serverOpen <==> r in open) && (c == r ==> p.upDone < |p.up| && m == p.up[p.upDone])
    ensures var sent := Added(Handle(st, open, c, m).posts, r);
            Served(p.down + sent, if c == r then p.upDone + 1 else p.upDone, p.serverOpen)
  {
    var posts := Handle(st, open, c, m).posts;
    AtMostOnePost(st, open, c, m);
    PostsGoToOpen(st, open, c, m);
    if c == r {
      ReceiverHead(p.role, p.up, p.clientOpen, p.upDone);
    }
    if c == r && p.upDone == 0 {
      RequestReplied(st, open, r, p.role.code, p.role.junkSize, p.role.junkNameSize);
    } else if SentTo(posts, r) {
      StreamOrNothing(st, open, c, m, r);
    }
    ServedMore(p.down, p.upDone, if c == r then p.upDone + 1 else p.upDone, p.serverOpen, Added(posts, r));
  }

  // ---------- what a receiver does about it ----------

  /** Where a receiver stands is what its reply told it to do: it stops at a Reject, having sent nothing
      but its request, and goes on at an Accept, where it fails only if its output does not open, which
      it reports, or if its transfer goes wrong. */
  ghost predicate Obeys(h: HashFn, role: Role, up: seq<Message>, open: bool, down: seq<Message>, downDone: nat)
    requires role.Receiver? && downDone <= |down|
  {
    match role.rpc
    case Begin => downDone == 0
    case AwaitReply => downDone == 0
    case Draining => false
    case Prompting => downDone == 1 && down[0].id == ACCEPT
    case Declined => downDone == 1 && down[0].id == ACCEPT
    case Opening => downDone == 1 && down[0].id == ACCEPT
    case Looping => downDone > 0 && down[0].id == ACCEPT
    case Finished => downDone > 0 && down[0].id == ACCEPT
    case Confirmed => downDone > 0 && down[0].id == ACCEPT
    case Failed =>
      downDone > 0
      && if down[0].id == REJECT then downDone == 1 && up == [Request(role)]
         else
           && down[0].id == ACCEPT
           && (CannotOpen(role, up, open, downDone) || TakeAll(h, NOTHING, down[..downDone]).failed)
  }

  predicate CannotOpen(role: Role, up: seq<Message>, open: bool, downDone: nat)
    requires role.Receiver?
  {
    && downDone == 1
    && (open ==> up == [Request(role), ClaimMessage(role.code), Control(FAILED_RECEIVE)])
  }

  ghost predicate Right(h: HashFn, p: Peer) {
    p.role.Receiver? ==>
      && Served(p.down, p.upDone, p.serverOpen)
      && p.downDone <= |p.down| && Obeys(h, p.role, p.up, p.clientOpen, p.down, p.downDone)
  }

  /** The reply is taken. */
  lemma ReplyObeyed(h: HashFn, p: Peer, kept: nat)
    requires ClientInv(h, p) && p.role.Receiver? && Right(h, p) && CanPop(p) && p.role.rpc == AwaitReply
    ensures Right(h, PopsNext(h, p, kept))
  {
    assert p.down != [] && p.upDone > 0 && p.up == [Request(p.role)];
  }

  lemma WritesObeyed(h: HashFn, role: Role, up: seq<Message>, open: bool, down: seq<Message>, n: nat, kept: nat)
    requires role.Receiver? && role.rpc == Looping && 0 < n < |down| && down[0].id == ACCEPT
    requires ReceiverTook(h, role, down, n)
    ensures Obeys(h, Writes(h, role, down[n], kept), up, open, down, n + 1)
  {
    WritesTook(h, role, down, n, kept);
  }

  lemma LoopObeyed(h: HashFn, p: Peer, kept: nat)
    requires p.role.Receiver? && p.downDone <= |p.down| && ReceiverTook(h, p.role, p.down, p.downDone)
    requires Right(h, p) && CanPop(p) && p.role.rpc == Looping
    ensures Right(h, PopsNext(h, p, kept))
  {
    WritesObeyed(h, p.role, p.up, p.clientOpen, p.down, p.downDone, kept);
  }

  lemma OpensObeyed(h: HashFn, p: Peer, a: Action)
    requires ClientInv(h, p) && p.role.Receiver? && Right(h, p) && CanStep(p, a) && a.ReceiverOpens?
    ensures Right(h, ClientStep(h, p, a))
  {
    var claimed := [Request(p.role), ClaimMessage(p.role.code)];
    assert claimed + [Control(FAILED_RECEIVE)]
           == [Request(p.role), ClaimMessage(p.role.code), Control(FAILED_RECEIVE)];
  }

  lemma OtherObeyed(h: HashFn, p: Peer, a: Action)
    requires ClientInv(h, p) && p.role.Receiver? && Right(h, p) && CanStep(p, a)
    requires !a.Pops? && !a.ReceiverOpens? && !a.ServerHandles? && !a.ServerForgets?
    ensures Right(h, ClientStep(h, p, a))
  {
  }

  lemma ClientObeys(h: HashFn, p: Peer, a: Action)
    requires ClientInv(h, p) && Right(h, p) && CanStep(p, a) && !a.ServerHandles? && !a.ServerForgets?
    ensures Right(h, ClientStep(h, p, a))
  {
    if !p.role.Receiver? {
      SameRole(h, p, a);
    } else if a.Pops? && p.role.rpc == AwaitReply {
      ReplyObeyed(h, p, a.kept);
    } else if a.Pops? {
      LoopObeyed(h, p, a.kept);
    } else if a.ReceiverOpens? {
      OpensObeyed(h, p, a);
    } else {
      OtherObeyed(h, p, a);
    }
  }

  lemma SameRole(h: HashFn, p: Peer, a: Action)
    requires CanStep(p, a)
    ensures ClientStep(h, p, a).role.Receiver? <==> p.role.Receiver?
  {
  }

  // ---------- every run ----------

  ghost predicate AllRight(h: HashFn, w: World) {
    forall r :: r in w.peers ==> Right(h, w.peers[r])
  }

  lemma MoreDown(h: HashFn, role: Role, up: seq<Message>, open: bool, down: seq<Message>, n: nat, sent: seq<Message>)
    requires role.Receiver? && n <= |down| && Obeys(h, role, up, open, down, n)
    ensures Obeys(h, role, up, open, down + sent, n)
  {
    assert (down + sent)[..n] == down[..n];
  }

  lemma RightNow(h: HashFn, w: World, c: Conn, o: Outcome, claims: map<Conn, Conn>, r: Conn)
    requires r in w.peers && Right(h, w.peers[r])
    requires var p := w.peers[r];
             p.role.Receiver? ==>
               Served(p.down + Added(o.posts, r), if c == r then p.upDone + 1 else p.upDone, p.serverOpen)
    ensures r in Next(w, c, o, claims).peers && Right(h, Next(w, c, o, claims).peers[r])
  {
    var p := w.peers[r];
    NextRoles(w, c, o, claims);
    PeerNextFields(p, r, c, o.posts);
    if p.role.Receiver? {
      MoreDown(h, p.role, p.up, p.clientOpen, p.down, p.downDone, Added(o.posts, r));
      SameDone(p, r, c, o.posts);
    }
  }

  lemma SameDone(p: Peer, x: Conn, c: Conn, posts: seq<Post>)
    ensures PeerNext(p, x, c, posts).downDone == p.downDone
    ensures PeerNext(p, x, c, posts).clientOpen == p.clientOpen
  {
  }

  lemma RightHandled(h: HashFn, w: World, c: Conn, r: Conn)
    requires Enabled(w, ServerHandles(c)) && r in w.peers && Right(h, w.peers[r])
    requires var p, o := w.peers[r], Answer(w, c);
             p.role.Receiver? ==>
               Served(p.down + Added(o.posts, r), if c == r then p.upDone + 1 else p.upDone, p.serverOpen)
    ensures Right(h, HandleNext(w, c).peers[r])
  {
    RightNow(h, w, c, Answer(w, c), NextClaims(w.store, w.claims, c, w.peers[c].up[w.peers[c].upDone]), r);
  }

  lemma RightElsewhere(h: HashFn, w: World, a: Action, r: Conn)
    requires Enabled(w, a) && !a.ServerHandles? && AllRight(h, w) && r in Apply(h, w, a).peers
    requires a.Join? || a.ServerForgets? || a.c != r
    ensures Right(h, Apply(h, w, a).peers[r])
  {
  }

  lemma RightStep(h: HashFn, w: World, a: Action, r: Conn)
    requires Inv(h, w) && Enabled(w, a) && AllRight(h, w) && r in Apply(h, w, a).peers
    ensures Right(h, Apply(h, w, a).peers[r])
  {
    if a.ServerHandles? {
      assert r in w.peers && ClientInv(h, w.peers[r]) && ServerInv(w, r, w.peers[r]) && Right(h, w.peers[r]);
      var m := w.peers[a.c].up[w.peers[a.c].upDone];
      if w.peers[r].role.Receiver? {
        ServedAfter(h, w.store, OpenSet(w.peers), w.claims, a.c, m, r, w.peers[r]);
      }
      RightHandled(h, w, a.c, r);
    } else if a.Join? || a.ServerForgets? || a.c != r {
      RightElsewhere(h, w, a, r);
    } else {
      assert ClientInv(h, w.peers[r]) && Right(h, w.peers[r]);
      ClientObeys(h, w.peers[r], a);
    }
  }

  lemma RightNext(h: HashFn, run: seq<World>, actions: seq<Action>, i: nat)
    requires IsRun(h, run, actions) && i < |actions| && AllRight(h, run[i])
    ensures AllRight(h, run[i + 1])
  {
    RunKeepsInv(h, run, actions, i);
    var next := run[i + 1];
    forall r | r in next.peers
      ensures Right(h, next.peers[r])
    {
      RightStep(h, run[i], actions[i], r);
    }
  }

  lemma {:induction false} RunIsRight(h: HashFn, run: seq<World>, actions: seq<Action>, i: nat)
    requires IsRun(h, run, actions) && i <= |actions|
    ensures AllRight(h, run[i])
  {
    if i > 0 {
      RunIsRight(h, run, actions, i - 1);
      RightNext(h, run, actions, i - 1);
    }
  }

  lemma ReachableRight(h: HashFn, w: World)
    requires Reachable(h, w)
    ensures AllRight(h, w)
  {
    var run, actions :| IsRun(h, run, actions) && run[|actions|] == w;
    RunIsRight(h, run, actions, |actions|);
  }

  // ---------- the promises ----------

  /** The messages a client has taken. */
  function Taken(p: Peer): seq<Message> {
    if p.downDone <= |p.down| then p.down[..p.downDone] else p.down
  }

  /** In every reachable state: the first message a receiver is sent is a Reject or an Accept that
      announces the server's chunk size, and all others belong to a transfer. It never goes on without
      a reply. */
  lemma ReplyComesFirst(h: HashFn, w: World, r: Conn)
    requires Reachable(h, w) && r in w.peers && w.peers[r].role.Receiver?
    ensures var down := w.peers[r].down;
            && (down != [] ==> IsReply(down[0])) && (forall i :: 1 <= i < |down| ==> IsStream(down[i]))
    ensures w.peers[r].role.rpc != Draining
    ensures w.peers[r].downDone == 0 <==> w.peers[r].role.rpc == Begin || w.peers[r].role.rpc == AwaitReply
  {
    ReachableRight(h, w);
    assert Right(h, w.peers[r]);
  }

  /** A rejected receiver has failed: it has sent its request and nothing else, and written nothing. */
  lemma RejectedStops(h: HashFn, w: World, r: Conn)
    requires Reachable(h, w) && r in w.peers && w.peers[r].role.Receiver?
    requires Taken(w.peers[r]) != [] && Taken(w.peers[r])[0].id == REJECT
    ensures w.peers[r].role.rpc == Failed && w.peers[r].up == [Request(w.peers[r].role)]
    ensures w.peers[r].downDone == 1 && w.peers[r].role.recv == NOTHING
  {
    ReachableRight(h, w);
    ReachableInv(h, w);
    var p := w.peers[r];
    assert Right(h, p) && ClientInv(h, p);
    NothingTaken(h, p);
  }

  lemma NothingTaken(h: HashFn, p: Peer)
    requires p.role.Receiver? && 1 <= |p.down| && ReceiverTook(h, p.role, p.down, 1) && p.down[0].id == REJECT
    ensures p.role.recv == NOTHING
  {
    assert p.down[..1] == [p.down[0]] && [p.down[0]][1..] == [];
    assert TakeAll(h, NOTHING, [p.down[0]]) == Take(h, NOTHING, p.down[0]);
  }

  /** An accepted receiver goes on. It fails only if its output does not open, which it reports while
      it can, or at the first message that is an Abort or a chunk under a wrong digest. */
  lemma AcceptedGoesOn(h: HashFn, w: World, r: Conn)
    requires Reachable(h, w) && r in w.peers && w.peers[r].role.Receiver?
    requires Taken(w.peers[r]) != [] && Taken(w.peers[r])[0].id == ACCEPT
    ensures w.peers[r].role.rpc !in {Begin, AwaitReply, Draining}
    ensures var p := w.peers[r];
            p.role.rpc == Failed ==>
              CannotOpen(p.role, p.up, p.clientOpen, p.downDone) || FirstEndIsBad(h, Taken(p))
  {
    ReachableRight(h, w);
    ReachableInv(h, w);
    var p := w.peers[r];
    assert Right(h, p) && ClientInv(h, p);
    LoopDecides(h, p.down[..p.downDone]);
  }

  /** Whatever the sender it claimed sends, program or rogue: once a receiver has taken a bad message
      before any final chunk, it has failed, and so never confirms. */
  lemma BadStops(h: HashFn, w: World, r: Conn)
    requires Reachable(h, w) && r in w.peers && w.peers[r].role.Receiver?
    requires FirstEndIsBad(h, Taken(w.peers[r]))
    ensures w.peers[r].role.rpc == Failed
  {
    ReachableRight(h, w);
    ReachableInv(h, w);
    var p := w.peers[r];
    assert Right(h, p) && ClientInv(h, p);
    LoopDecides(h, p.down[..p.downDone]);
  }

  /** When the server handles the request of a receiver it can reach, the receiver is rejected exactly
      if no sender holds its code at that moment. */
  lemma RejectedIffUnknown(h: HashFn, w: World, r: Conn)
    requires Reachable(h, w) && r in w.peers && w.peers[r].role.Receiver? && w.peers[r].upDone == 0
    requires w.peers[r].serverOpen && Enabled(w, ServerHandles(r))
    ensures var down := HandleNext(w, r).peers[r].down;
            |down| == 1 && (down[0].id == REJECT <==> w.peers[r].role.code.code !in w.store.phrases.right)
  {
    ReachableRight(h, w);
    ReachableInv(h, w);
    var p := w.peers[r];
    assert Right(h, p) && ClientInv(h, p) && ServerInv(w, r, p);
    ReceiverHead(p.role, p.up, p.clientOpen, 0);
    RequestReplied(w.store, OpenSet(w.peers), r, p.role.code, p.role.junkSize, p.role.junkNameSize);
    PeerNextFields(p, r, r, Answer(w, r).posts);
    NextRoles(w, r, Answer(w, r), NextClaims(w.store, w.claims, r, p.up[0]));
  }

  /** Nothing unverified reaches a disk: what a receiver holds is part of what it took in chunks that
      end in their own digest, whoever sent them. */
  lemma NothingUnverified(h: HashFn, w: World, r: Conn)
    requires Reachable(h, w) && r in w.peers && w.peers[r].role.Receiver?
    ensures var taken := Taken(w.peers[r]);
            && w.peers[r].role.recv.out <= Flatten(Pieces(h, taken))
            && forall piece :: piece in Pieces(h, taken) ==> Message(CHUNK, piece + h(piece)) in taken
  {
    ReachableInv(h, w);
    var p := w.peers[r];
    assert ClientInv(h, p);
    PiecesJoin(h, Taken(p));
    forall piece | piece in Pieces(h, Taken(p))
      ensures Message(CHUNK, piece + h(piece)) in Taken(p)
    {
      PiecesVerified(h, Taken(p), piece);
    }
  }
}
