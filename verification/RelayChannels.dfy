/** The channels of the relay move like the connections under it: Channel.StepMovesLink and
    Channel.ByteMovesLink for the write pump and the frame reader, and here for the relay. */
module RelayChannels {
  import opened NetMessage
  import opened Links
  import opened Server
  import opened Sessions
  import opened Relay
  import opened RelayServer
  import opened RelayRuns

  /** From the client to the server, and back. */
  function UpLink(p: Peer): Link {
    Link(p.up, p.upDone, p.clientOpen)
  }

  function DownLink(p: Peer): Link {
    Link(p.down, p.downDone, p.serverOpen)
  }

  lemma ClientMovesLinks(h: HashFn, p: Peer, a: Action)
    requires CanStep(p, a) && !a.ServerHandles? && !a.ServerForgets?
    ensures LinkStep(UpLink(p), UpLink(ClientStep(h, p, a)))
    ensures LinkStep(DownLink(p), DownLink(ClientStep(h, p, a)))
  {
    if a.Pops? {
      TakenOrNot(p.down, p.downDone, p.downDone + 1, p.serverOpen);
    }
  }

  lemma PeerMovesLinks(p: Peer, x: Conn, c: Conn, posts: seq<Post>)
    requires (SentTo(posts, x) ==> p.serverOpen) && (x == c ==> p.upDone < |p.up|)
    ensures LinkStep(UpLink(p), UpLink(PeerNext(p, x, c, posts)))
    ensures LinkStep(DownLink(p), DownLink(PeerNext(p, x, c, posts)))
  {
  }

  lemma SentToOpen(peers: map<Conn, Peer>, st: Store, c: Conn, m: Message, x: Conn)
    requires Decodable(m) && x in peers && SentTo(Handle(st, OpenSet(peers), c, m).posts, x)
    ensures peers[x].serverOpen
  {
    PostsGoToOpen(st, OpenSet(peers), c, m);
  }

  /** The server takes a message of c and answers on open connections only. */
  lemma ServerMovesLinks(w: World, c: Conn, x: Conn)
    requires Enabled(w, ServerHandles(c)) && x in w.peers
    ensures var q := HandleNext(w, c).peers[x];
            LinkStep(UpLink(w.peers[x]), UpLink(q)) && LinkStep(DownLink(w.peers[x]), DownLink(q))
  {
    var m := w.peers[c].up[w.peers[c].upDone];
    var posts := Handle(w.store, OpenSet(w.peers), c, m).posts;
    if SentTo(posts, x) {
      SentToOpen(w.peers, w.store, c, m, x);
    }
    PeerMovesLinks(w.peers[x], x, c, posts);
  }

  /** Every step of the relay moves each direction of each connection by at most one step. */
  lemma StepMovesLinks(h: HashFn, w: World, a: Action, x: Conn)
    requires Enabled(w, a) && x in w.peers
    ensures x in Apply(h, w, a).peers
    ensures var p, q := w.peers[x], Apply(h, w, a).peers[x];
            LinkStep(UpLink(p), UpLink(q)) && LinkStep(DownLink(p), DownLink(q))
  {
    if a.ServerHandles? {
      ServerMovesLinks(w, a.c, x);
    } else if !a.Join? && !a.ServerForgets? && x == a.c {
      ClientMovesLinks(h, w.peers[x], a);
    }
  }
}
