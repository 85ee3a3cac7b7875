/** Senders that wait for ever: waitForConfirmation leaves its loop only for an Abort, which no sender
    is ever sent, or a Success, which may never come. */
module Waiting {
  import opened Bytes
  import opened NetMessage
  import opened Codec
  import opened Server
  import opened ServerProofs
  import opened Sessions
  import opened Relay
  import opened RelayInvariant
  import opened RelayServer
  import opened RelayRuns
  import opened Transfers

  // ---------- a sender that will never be confirmed ----------

  /** Past its Accept and not confirmed. */
  predicate Running(pc: SenderPc) {
    pc == Sending || pc.Finishing? || pc == Confirming || pc == Returned(false)
  }

  ghost predicate NoSuccessLeft(p: Peer) {
    forall i :: p.downDone <= i < |p.down| ==> p.down[i].id != SUCCESS
  }

  /** The server cannot send it a Success any more: its end is closed, or it has forgotten the sender,
      which sends its metadata only once. */
  predicate CutOff(st: Store, s: Conn, p: Peer) {
    !p.serverOpen || (s !in st.contexts && p.upDone > 0)
  }

  ghost predicate Unconfirmed(p: Peer) {
    p.role.Sender? && Running(p.role.pc) && NoSuccessLeft(p) && p.downDone <= |p.down|
  }

  ghost predicate Lost(w: World, s: Conn) {
    s in w.peers && Unconfirmed(w.peers[s]) && CutOff(w.store, s, w.peers[s])
  }

  lemma UnconfirmedStep(h: HashFn, p: Peer, a: Action)
    requires Unconfirmed(p) && CanStep(p, a) && !a.ServerHandles? && !a.ServerForgets?
    ensures var q := ClientStep(h, p, a);
            Unconfirmed(q) && q.upDone == p.upDone && (q.serverOpen ==> p.serverOpen)
    ensures p.role.pc == Confirming && (a.Pops? ==> p.down[p.downDone].id != ABORT) ==>
              ClientStep(h, p, a).role.pc == Confirming
  {
  }

  lemma ContentKeepsOut(st: Store, open: set<Conn>, s: Conn, m: Message)
    requires (m.id == CHUNK || m.id == FINAL_CHUNK) && s !in st.contexts
    ensures s !in Handle(st, open, s, m).store.contexts
  {
  }

  /** No message brings a sender back but its own metadata, and none confirms one that is not known. */
  lemma StaysForgotten(st: Store, open: set<Conn>, c: Conn, m: Message, s: Conn)
    requires Chained(st) && Decodable(m) && s !in st.contexts
    requires c == s ==> m.id == CHUNK || m.id == FINAL_CHUNK
    ensures var o := Handle(st, open, c, m);
            s !in o.store.contexts && (SentTo(o.posts, s) ==> o.posts[0].msg.id != SUCCESS)
  {
    SuccessForgets(st, open, c, m, s);
    if c == s {
      ContentKeepsOut(st, open, s, m);
    } else {
      HandleGrows(st, open, c, m);
    }
  }

  lemma SuccessForgets(st: Store, open: set<Conn>, c: Conn, m: Message, s: Conn)
    requires Chained(st) && Decodable(m)
    ensures var o := Handle(st, open, c, m);
            SentTo(o.posts, s) && o.posts[0].msg.id == SUCCESS ==> s in st.contexts && s !in o.store.contexts
  {
    SuccessFrom(st, open, c, m);
    if m.id == FINISH_RECEIVE && c !in st.sessions && c in st.pairs.right {
      assert st.pairs.right[c] in st.pairs.left;
    }
  }

  /** The next message of a sender after its metadata is content. */
  lemma NextIsContent(h: HashFn, p: Peer)
    requires ClientInv(h, p) && p.role.Sender? && 0 < p.upDone < |p.up|
    ensures p.up[p.upDone].id == CHUNK || p.up[p.upDone].id == FINAL_CHUNK
  {
    SenderHead(h, p.role, p.up, p.clientOpen, p.upDone);
  }

  /** An outcome that sends s no Success and, if its connection is open, does not bring it back. */
  predicate KeepsOut(o: Outcome, s: Conn, p: Peer) {
    (SentTo(o.posts, s) ==> o.posts[0].msg.id != SUCCESS) && (p.serverOpen ==> s !in o.store.contexts)
  }

  lemma CutOffHandled(h: HashFn, peers: map<Conn, Peer>, st: Store, c: Conn, m: Message, s: Conn)
    requires Chained(st) && c in peers && s in peers && ClientInv(h, peers[s]) && peers[s].role.Sender?
    requires peers[c].upDone < |peers[c].up| && m == peers[c].up[peers[c].upDone] && Decodable(m)
    requires CutOff(st, s, peers[s])
    ensures KeepsOut(Handle(st, OpenSet(peers), c, m), s, peers[s])
  {
    if peers[s].serverOpen {
      if c == s {
        NextIsContent(h, peers[s]);
      }
      StaysForgotten(st, OpenSet(peers), c, m, s);
    } else {
      PostsGoToOpen(st, OpenSet(peers), c, m);
    }
  }

  lemma LostNow(w: World, c: Conn, o: Outcome, claims: map<Conn, Conn>, s: Conn)
    requires Lost(w, s) && KeepsOut(o, s, w.peers[s])
    ensures Lost(Next(w, c, o, claims), s) && Next(w, c, o, claims).peers[s].role == w.peers[s].role
  {
    PeerKeepsOut(w.peers[s], s, c, o.posts);
    NextRoles(w, c, o, claims);
  }

  lemma LostHandled(w: World, c: Conn, s: Conn)
    requires Enabled(w, ServerHandles(c)) && Lost(w, s) && KeepsOut(Answer(w, c), s, w.peers[s])
    ensures Lost(HandleNext(w, c), s) && HandleNext(w, c).peers[s].role == w.peers[s].role
  {
    LostNow(w, c, Answer(w, c), NextClaims(w.store, w.claims, c, w.peers[c].up[w.peers[c].upDone]), s);
  }

  lemma PeerKeepsOut(p: Peer, s: Conn, c: Conn, posts: seq<Post>)
    requires Unconfirmed(p) && (SentTo(posts, s) ==> posts[0].msg.id != SUCCESS)
    ensures var q := PeerNext(p, s, c, posts);
            Unconfirmed(q) && q.role == p.role && q.serverOpen == p.serverOpen && q.upDone >= p.upDone
  {
  }

  /** Steps of other connections that are not handled messages. */
  lemma LostElsewhere(h: HashFn, w: World, a: Action, s: Conn)
    requires Enabled(w, a) && !a.ServerHandles? && (a.Join? || a.ServerForgets? || a.c != s) && Lost(w, s)
    ensures Lost(Apply(h, w, a), s) && Apply(h, w, a).peers[s] == w.peers[s]
  {
  }

  lemma LostOwn(h: HashFn, w: World, a: Action, s: Conn)
    requires Enabled(w, a) && !a.Join? && !a.ServerHandles? && !a.ServerForgets? && a.c == s && Lost(w, s)
    requires ClientInv(h, w.peers[s])
    ensures Lost(Apply(h, w, a), s)
    ensures w.peers[s].role.pc == Confirming ==> Apply(h, w, a).peers[s].role.pc == Confirming
  {
    NeverAborted(h, w.peers[s]);
    UnconfirmedStep(h, w.peers[s], a);
  }

  lemma LostStep(h: HashFn, w: World, a: Action, s: Conn)
    requires Inv(h, w) && Enabled(w, a) && Lost(w, s)
    ensures Lost(Apply(h, w, a), s)
    ensures w.peers[s].role.pc == Confirming ==> Apply(h, w, a).peers[s].role.pc == Confirming
  {
    assert ClientInv(h, w.peers[s]);
    if a.ServerHandles? {
      CutOffHandled(h, w.peers, w.store, a.c, w.peers[a.c].up[w.peers[a.c].upDone], s);
      LostHandled(w, a.c, s);
    } else if a.Join? || a.ServerForgets? || a.c != s {
      LostElsewhere(h, w, a, s);
    } else {
      LostOwn(h, w, a, s);
    }
  }

  lemma NeverAborted(h: HashFn, p: Peer)
    requires ClientInv(h, p) && p.role.Sender?
    ensures forall i :: 0 <= i < |p.down| ==> p.down[i].id != ABORT
  {
    forall i | 0 <= i < |p.down|
      ensures p.down[i].id != ABORT
    {
      assert p.down[i] in p.down;
    }
  }

  ghost predicate StaysLost(w: World, w': World, s: Conn) {
    && Lost(w, s) && Lost(w', s)
    && (w.peers[s].role.pc == Confirming ==> w'.peers[s].role.pc == Confirming)
  }

  lemma LostNext(h: HashFn, run: seq<World>, actions: seq<Action>, k: nat, s: Conn)
    requires IsRun(h, run, actions) && k < |actions| && Lost(run[k], s)
    ensures StaysLost(run[k], run[k + 1], s)
  {
    RunKeepsInv(h, run, actions, k);
    LostStep(h, run[k], actions[k], s);
  }

  lemma {:induction false} LostAlong(run: seq<World>, i: nat, j: nat, s: Conn)
    requires i <= j < |run| && Lost(run[i], s)
    requires forall k :: i <= k < j && Lost(run[k], s) ==> StaysLost(run[k], run[k + 1], s)
    ensures StaysLost(run[i], run[j], s)
  {
    if i < j {
      LostAlong(run, i, j - 1, s);
      assert StaysLost(run[j - 1], run[j - 1 + 1], s);
    }
  }

  /** Once lost, a sender is never confirmed, in any continuation; and if it already waits for the
      confirmation, it waits for ever, although its connection may long be closed. */
  lemma LostForEver(h: HashFn, run: seq<World>, actions: seq<Action>, i: nat, j: nat, s: Conn)
    requires IsRun(h, run, actions) && i <= j <= |actions| && Lost(run[i], s)
    ensures Lost(run[j], s) && run[j].peers[s].role.pc != Returned(true)
    ensures run[i].peers[s].role.pc == Confirming ==> run[j].peers[s].role.pc == Confirming
  {
    forall k | i <= k < j && Lost(run[k], s)
      ensures StaysLost(run[k], run[k + 1], s)
    {
      LostNext(h, run, actions, k, s);
    }
    LostAlong(run, i, j, s);
  }

  // ---------- a Success that arrives too early ----------

  ghost predicate AtMostOneSuccess(down: seq<Message>) {
    forall i, j :: 0 <= i < |down| && 0 <= j < |down| && down[i].id == SUCCESS && down[j].id == SUCCESS ==> i == j
  }

  ghost predicate HasSuccess(down: seq<Message>) {
    exists i :: 0 <= i < |down| && down[i].id == SUCCESS
  }

  /** What a sender was sent, and whether the server still knows it. */
  ghost predicate Informed(down: seq<Message>, known: bool) {
    AtMostOneSuccess(down) && (HasSuccess(down) ==> !known)
  }

  /** A sender is sent at most one Success, and is then forgotten. */
  ghost predicate ToldOnce(w: World, s: Conn) {
    s in w.peers ==> Informed(w.peers[s].down, s in w.store.contexts)
  }

  ghost predicate AllToldOnce(w: World) {
    forall s :: s in w.peers && w.peers[s].role.Sender? ==> ToldOnce(w, s)
  }

  /** No handled message brings back a sender whose metadata was handled. */
  lemma KnownStays(h: HashFn, st: Store, open: set<Conn>, c: Conn, m: Message, s: Conn, p: Peer)
    requires Chained(st) && Decodable(m) && ClientInv(h, p) && p.role.Sender? && 0 < p.upDone
    requires s !in st.contexts && (c == s ==> p.upDone < |p.up| && m == p.up[p.upDone])
    ensures s !in Handle(st, open, c, m).store.contexts
  {
    if c == s {
      NextIsContent(h, p);
    }
    StaysForgotten(st, open, c, m, s);
  }

  lemma ToldOnceMore(down: seq<Message>, sent: seq<Message>)
    requires |sent| <= 1
    requires sent != [] && sent[0].id == SUCCESS ==> forall i :: 0 <= i < |down| ==> down[i].id != SUCCESS
    requires AtMostOneSuccess(down)
    ensures AtMostOneSuccess(down + sent)
  {
  }

  lemma InformedNext(down: seq<Message>, posts: seq<Post>, s: Conn, before: bool, after: bool)
    requires |posts| <= 1 && Informed(down, before)
    requires SentTo(posts, s) && posts[0].msg.id == SUCCESS ==> before && !after
    requires HasSuccess(down) ==> !after
    ensures Informed(down + Added(posts, s), after)
  {
    ToldOnceMore(down, Added(posts, s));
    SuccessEither(down, Added(posts, s));
  }

  lemma InformedHandled(h: HashFn, st: Store, open: set<Conn>, c: Conn, m: Message, s: Conn, p: Peer)
    requires Chained(st) && Decodable(m) && ClientInv(h, p) && p.role.Sender? && (p.down != [] ==> 0 < p.upDone)
    requires c == s ==> p.upDone < |p.up| && m == p.up[p.upDone]
    requires Informed(p.down, s in st.contexts)
    ensures var o := Handle(st, open, c, m);
            Informed(p.down + Added(o.posts, s), s in o.store.contexts)
  {
    var o := Handle(st, open, c, m);
    AtMostOnePost(st, open, c, m);
    SuccessForgets(st, open, c, m, s);
    if HasSuccess(p.down) {
      KnownStays(h, st, open, c, m, s, p);
    }
    InformedNext(p.down, o.posts, s, s in st.contexts, s in o.store.contexts);
  }

  lemma ToldNow(w: World, c: Conn, o: Outcome, claims: map<Conn, Conn>, s: Conn)
    requires s in w.peers && Informed(w.peers[s].down + Added(o.posts, s), s in o.store.contexts)
    ensures ToldOnce(Next(w, c, o, claims), s)
  {
    PeerNextFields(w.peers[s], s, c, o.posts);
    NextRoles(w, c, o, claims);
  }

  lemma ToldOnceHandled(w: World, c: Conn, s: Conn)
    requires Enabled(w, ServerHandles(c)) && s in w.peers
    requires var o := Answer(w, c); Informed(w.peers[s].down + Added(o.posts, s), s in o.store.contexts)
    ensures ToldOnce(HandleNext(w, c), s)
  {
    ToldNow(w, c, Answer(w, c), NextClaims(w.store, w.claims, c, w.peers[c].up[w.peers[c].upDone]), s);
  }

  lemma SuccessEither(down: seq<Message>, sent: seq<Message>)
    requires |sent| <= 1
    ensures HasSuccess(down + sent) ==> HasSuccess(down) || (sent != [] && sent[0].id == SUCCESS)
  {
  }

  lemma ToldOnceElsewhere(h: HashFn, w: World, a: Action, s: Conn)
    requires Enabled(w, a) && !a.ServerHandles? && s in w.peers && ToldOnce(w, s)
    ensures ToldOnce(Apply(h, w, a), s)
  {
    if !a.Join? && !a.ServerForgets? && a.c == s {
      SameDown(h, w.peers[s], a);
    }
  }

  /** A sender after a step was one before, or has just joined. */
  lemma StillSender(h: HashFn, w: World, a: Action, s: Conn)
    requires Enabled(w, a) && s in Apply(h, w, a).peers && Apply(h, w, a).peers[s].role.Sender?
    ensures (s in w.peers && w.peers[s].role.Sender?) ||
            (s !in w.peers && a.Join? && Apply(h, w, a).peers[s].down == [])
  {
    if a.ServerHandles? {
      PeerNextFields(w.peers[s], s, a.c,
                     Handle(w.store, OpenSet(w.peers), a.c, w.peers[a.c].up[w.peers[a.c].upDone]).posts);
    } else if !a.Join? && !a.ServerForgets? && a.c == s {
      SameDown(h, w.peers[s], a);
    }
  }

  lemma ToldOnceStep(h: HashFn, w: World, a: Action, s: Conn)
    requires Inv(h, w) && Enabled(w, a) && AllToldOnce(w)
    requires s in Apply(h, w, a).peers && Apply(h, w, a).peers[s].role.Sender?
    ensures ToldOnce(Apply(h, w, a), s)
  {
    StillSender(h, w, a, s);
    if s in w.peers {
      assert ToldOnce(w, s);
      if a.ServerHandles? {
        assert ClientInv(h, w.peers[s]) && ServerInv(w, s, w.peers[s]);
        InformedHandled(h, w.store, OpenSet(w.peers), a.c, w.peers[a.c].up[w.peers[a.c].upDone], s, w.peers[s]);
        ToldOnceHandled(w, a.c, s);
      } else {
        ToldOnceElsewhere(h, w, a, s);
      }
    }
  }

  lemma SameDown(h: HashFn, p: Peer, a: Action)
    requires CanStep(p, a)
    ensures ClientStep(h, p, a).down == p.down && (ClientStep(h, p, a).role.Sender? <==> p.role.Sender?)
  {
  }

  lemma {:induction false} RunToldOnce(h: HashFn, run: seq<World>, actions: seq<Action>, i: nat)
    requires IsRun(h, run, actions) && i <= |actions|
    ensures AllToldOnce(run[i])
  {
    if i > 0 {
      RunToldOnce(h, run, actions, i - 1);
      RunKeepsInv(h, run, actions, i - 1);
      forall s | s in run[i].peers && run[i].peers[s].role.Sender?
        ensures ToldOnce(run[i], s)
      {
        ToldOnceStep(h, run[i - 1], actions[i - 1], s);
      }
    }
  }

  lemma ReachableToldOnce(h: HashFn, w: World)
    requires Reachable(h, w)
    ensures AllToldOnce(w)
  {
    var run, actions :| IsRun(h, run, actions) && run[|actions|] == w;
    RunToldOnce(h, run, actions, |actions|);
  }

  lemma AnsweredAfterMetadata(h: HashFn, w: World, s: Conn)
    requires Reachable(h, w) && s in w.peers && w.peers[s].role.Sender? && w.peers[s].down != []
    ensures w.peers[s].upDone > 0
  {
    ReachableInv(h, w);
    assert ServerInv(w, s, w.peers[s]);
  }

  /** The chunk loop skips every message that is no Abort. If the Success arrives while the sender is
      still in it, the Success is taken and lost, and the sender with it. */
  lemma SkippedSuccess(h: HashFn, w: World, s: Conn, kept: nat)
    requires Reachable(h, w) && Enabled(w, Pops(s, kept)) && w.peers[s].role.Sender?
    requires w.peers[s].role.pc == Sending && w.peers[s].down[w.peers[s].downDone].id == SUCCESS
    ensures Lost(Apply(h, w, Pops(s, kept)), s)
    ensures Apply(h, w, Pops(s, kept)).peers[s].role == w.peers[s].role
  {
    ReachableToldOnce(h, w);
    AnsweredAfterMetadata(h, w, s);
    assert ToldOnce(w, s);
    OnlySuccess(w.peers[s]);
  }

  lemma OnlySuccess(p: Peer)
    requires AtMostOneSuccess(p.down) && p.downDone < |p.down| && p.down[p.downDone].id == SUCCESS
    ensures NoSuccessLeft(p.(downDone := p.downDone + 1))
  {
  }

  // ---------- a run that ends so ----------

  /** The sender goes on alone: the server has forgotten it. */
  ghost predicate Alone(h: HashFn, w: World, sender: Role, rest: seq<byte>, pc: SenderPc) {
    && sender.Sender? && Reachable(h, w) && Up(w)
    && w.peers[0].role == sender.(pc := pc, size := MAX_CHUNK, rest := rest)
    && 0 !in w.store.contexts && w.peers[0].upDone > 0 && w.peers[0].downDone == |w.peers[0].down|
  }

  lemma {:induction false} SendsAlone(h: HashFn, w0: World, sender: Role, rest: seq<byte>) returns (w: World)
    requires Alone(h, w0, sender, rest, Sending)
    ensures Alone(h, w, sender, [], Confirming)
    decreases |rest|
  {
    var n := ReadCount(rest, MAX_CHUNK);
    w := ClientTurn(h, w0, SenderReads(0));
    if n == MAX_CHUNK {
      w := SendsAlone(h, w, sender, rest[n..]);
    } else {
      assert rest[n..] == [] && (rest == [] ==> n == 0);
      w := ClientTurn(h, w, SenderEnds(0));
    }
  }

  lemma FailureForgets(st: Store, open: set<Conn>, pre: PreMetadata)
    requires Serves(st, pre) && 1 in open
    ensures Handle(st, open, 1, Control(FAILED_RECEIVE)) == Outcome(st.Drop(0), [Post(1, Control(ABORT))], [0])
  {
  }

  /** The receiver cannot open its output and says so; the server forgets the sender without a word. */
  lemma ReceiverFails(h: HashFn, w0: World, sender: Role, receiver: Role, context: Context) returns (w: World)
    requires sender.Sender? && sender.pc == Waiting && receiver.Receiver? && receiver.rpc == Opening
    requires Reachable(h, w0) && Roles(w0, sender, receiver) && Serves(w0.store, sender.pre)
    requires WellFormed(context) && Told(w0.peers[0], AcceptMessage(context.post)) && Settled(w0.peers[1])
    ensures Alone(h, w, sender, sender.rest, Sending)
  {
    AcceptRead(context);
    var w1 := ClientTurn(h, w0, Pops(0, 0));
    var w2 := ClientTurn(h, w1, ReceiverOpens(1, false));
    w := FailureHandled(h, w2, sender.pre);
    ReachableInv(h, w);
    assert ClientInv(h, w.peers[0]);
  }

  lemma FailureHandled(h: HashFn, w0: World, pre: PreMetadata) returns (w: World)
    requires Reachable(h, w0) && Up(w0) && Serves(w0.store, pre)
    requires Asking(w0.peers[1], Control(FAILED_RECEIVE)) && Settled(w0.peers[0])
    ensures Reachable(h, w) && Roles(w, w0.peers[0].role, w0.peers[1].role) && Settled(w.peers[0])
    ensures 0 !in w.store.contexts
  {
    BothOpen(w0);
    FailureForgets(w0.store, OpenSet(w0.peers), pre);
    w := ServerTurn(h, w0, 1, Control(FAILED_RECEIVE),
                    Outcome(w0.store.Drop(0), [Post(1, Control(ABORT))], [0]));
  }

  /** For every file there is a run that strands its sender: the receiver claims it and then cannot
      open its output. The sender sends the whole file and waits, and no continuation frees it. */
  lemma EverySenderCanBeStranded(h: HashFn, file: seq<byte>, pre: PreMetadata, disk: nat) returns (w: World)
    requires pre.Sized() && pre.file.fileSize == |file|
    ensures Reachable(h, w) && Lost(w, 0)
    ensures w.peers[0].role.Sender? && w.peers[0].role.file == file && w.peers[0].role.pc == Confirming
  {
    var sender, receiver := NewSender(file, pre), NewReceiver(pre.phrase, disk);
    var w1 := Registered(h, sender, receiver);
    var w2 := Asked(h, w1, sender.(pc := Waiting), receiver);
    var w3, context := ClaimSent(h, w2, sender.(pc := Waiting), receiver.(rpc := Prompting));
    var w4 := ReceiverFails(h, w3, sender.(pc := Waiting), receiver.(rpc := Opening), context);
    w := SendsAlone(h, w4, sender.(pc := Waiting), file);
  }

  // ---------- when the server can still confirm ----------

  /** Events in which the sender itself does nothing. */
  predicate Others(s: Conn, events: seq<Event>) {
    forall e :: e in events && e.Handled? ==> e.from != s
  }

  /** No longer pending under its code, or recorded as its own receiver. */
  predicate Hopeless(st: Store, s: Conn) {
    s !in st.phrases.left || (s in st.pairs.left && st.pairs.left[s] == s)
  }

  lemma HopelessStep(st: Store, e: Event, s: Conn)
    requires Chained(st) && LegalEvent(e) && (e.Handled? ==> e.from != s) && Hopeless(st, s)
    ensures Hopeless(React(st, e).store, s) && !SendsSuccess(React(st, e).posts, s)
  {
    SuccessCause(st, e, s);
    if e.Handled? && e.from in st.pairs.right {
      assert st.pairs.right[e.from] in st.pairs.left;
    }
    if e.Gone? {
      DropHopeless(st, e.client, s);
    } else if e.from in st.sessions {
      HopelessSessioned(st, e.open, e.from, e.msg, s);
    } else if e.msg.id == SEND {
      HopelessSend(st, e.open, e.from, e.msg, s);
    } else if e.msg.id == RECEIVE {
      HopelessClaim(st, e.open, e.from, e.msg, s);
    } else {
      HopelessOther(st, e.open, e.from, e.msg, s);
    }
  }

  lemma DropHopeless(st: Store, c: Conn, s: Conn)
    requires Chained(st) && Hopeless(st, s)
    ensures Hopeless(st.Drop(c), s)
  {
    EraseValid(st.phrases, c);
    EraseValid(st.pairs, c);
  }

  lemma HopelessSessioned(st: Store, open: set<Conn>, c: Conn, m: Message, s: Conn)
    requires Chained(st) && c in st.sessions && Hopeless(st, s)
    ensures Hopeless(OnSessioned(st, open, c, m).store, s)
  {
    DropHopeless(st, c, s);
  }

  lemma HopelessClaim(st: Store, open: set<Conn>, c: Conn, m: Message, s: Conn)
    requires Chained(st) && DecodePhrase(m.body).Popped? && c != s && Hopeless(st, s)
    ensures Hopeless(OnReceive(st, open, c, m).store, s)
  {
  }

  lemma HopelessSend(st: Store, open: set<Conn>, c: Conn, m: Message, s: Conn)
    requires Chained(st) && DecodePre(m.body).Popped? && c !in st.sessions && c != s && Hopeless(st, s)
    ensures Hopeless(OnSend(st, open, c, m).store, s)
  {
    EraseValid(st.phrases, c);
  }

  lemma HopelessOther(st: Store, open: set<Conn>, c: Conn, m: Message, s: Conn)
    requires Chained(st) && Decodable(m) && c !in st.sessions && m.id != SEND && m.id != RECEIVE
    requires c != s && Hopeless(st, s)
    ensures Hopeless(Handle(st, open, c, m).store, s)
  {
    if c in st.pairs.right {
      DropHopeless(st, st.pairs.right[c], s);
      assert st.pairs.right[c] in st.pairs.left;
    }
  }

  lemma {:induction false} NoneSent(s: Conn, posts: seq<Post>)
    requires !SendsSuccess(posts, s)
    ensures Successes(s, posts) == 0
  {
    if posts != [] {
      NoneSent(s, posts[1..]);
    }
  }

  lemma {:induction false} HopelessAlong(st: Store, events: seq<Event>, s: Conn)
    requires Chained(st) && Legal(events) && Others(s, events) && Hopeless(st, s)
    ensures Successes(s, PostsOf(st, events)) == 0
    decreases |events|
  {
    if events != [] {
      assert events[0] in events;
      var o := React(st, events[0]);
      HopelessStep(st, events[0], s);
      NoneSent(s, o.posts);
      ReactChained(st, events[0]);
      HopelessAlong(o.store, events[1..], s);
      SuccessesAppend(s, o.posts, PostsOf(o.store, events[1..]));
    }
  }

  /** Some way of the other connections brings the sender a Success. */
  ghost predicate MayBeConfirmed(st: Store, s: Conn) {
    exists events: seq<Event> :: Legal(events) && Others(s, events) && Successes(s, PostsOf(st, events)) > 0
  }

  lemma FinishNow(st: Store, r: Conn, s: Conn)
    requires r in st.pairs.right && st.pairs.right[r] == s && r !in st.sessions
    ensures React(st, Handled(r, Control(FINISH_RECEIVE), {s})).posts == [Post(s, Control(SUCCESS))]
  {
  }

  lemma AfterFinish(st: Store, r: Conn, s: Conn)
    requires r in st.pairs.right && st.pairs.right[r] == s && r !in st.sessions && r != s
    ensures MayBeConfirmed(st, s)
  {
    var finish := Handled(r, Control(FINISH_RECEIVE), {s});
    FinishNow(st, r, s);
    OneSuccess([Post(s, Control(SUCCESS))], s);
    FirstEvent(st, finish, []);
    assert [finish] + [] == [finish] && React(st, finish).posts + [] == React(st, finish).posts;
    assert Legal([finish]) && Others(s, [finish]);
  }

  lemma EventFirst(st: Store, e: Event, s: Conn)
    requires LegalEvent(e) && (e.Handled? ==> e.from != s) && MayBeConfirmed(React(st, e).store, s)
    ensures MayBeConfirmed(st, s)
  {
    var next := React(st, e).store;
    var events: seq<Event> :| Legal(events) && Others(s, events) && Successes(s, PostsOf(next, events)) > 0;
    FirstEvent(st, e, events);
    SuccessesAppend(s, React(st, e).posts, PostsOf(next, events));
    OthersToo(s, e, events);
    assert Successes(s, PostsOf(st, [e] + events)) > 0;
  }

  lemma OthersToo(s: Conn, e: Event, events: seq<Event>)
    requires LegalEvent(e) && Legal(events) && (e.Handled? ==> e.from != s) && Others(s, events)
    ensures Legal([e] + events) && Others(s, [e] + events)
  {
  }

  lemma Fresh(cs: set<Conn>) returns (c: Conn)
    ensures c !in cs && forall x :: x in cs ==> x < c
  {
    if cs == {} {
      return 0;
    }
    var x :| x in cs;
    var y := Fresh(cs - {x});
    c := if x < y then y else x + 1;
    forall z | z in cs
      ensures z < c
    {
      assert z == x || z in cs - {x};
    }
  }

  /** A connection that nothing knows yet claims the code of s. */
  lemma FreshClaim(st: Store, s: Conn, c: Conn)
    requires Chained(st) && s in st.phrases.left && s !in st.pairs.left
    requires c !in st.sessions && c !in st.pairs.right && c != s
    ensures var claim := Handled(c, ClaimMessage(st.contexts[s].pre.phrase), {});
            && LegalEvent(claim)
            && var next := React(st, claim).store;
               c in next.pairs.right && next.pairs.right[c] == s && c !in next.sessions
  {
    var phrase := st.contexts[s].pre.phrase;
    ClaimFit(phrase);
    PhraseRoundTrip([], phrase);
    assert [] + EncodePhrase(phrase) == EncodePhrase(phrase);
    assert st.phrases.right[st.phrases.left[s]] == s;
  }

  /** A recorded receiver that is itself in a session leaves it. */
  lemma LeaveSession(st: Store, r: Conn, s: Conn)
    requires Chained(st) && r in st.sessions && r in st.pairs.right && st.pairs.right[r] == s && r != s
    ensures var next := React(st, Handled(r, Control(ABORT), {})).store;
            r in next.pairs.right && next.pairs.right[r] == s && r !in next.sessions
  {
    EraseValid(st.pairs, r);
  }

  /** Exactly when the other connections can still bring a sender its Success: it is pending under its
      code, and not recorded as its own receiver. */
  lemma ConfirmationPossible(st: Store, s: Conn)
    requires Chained(st)
    ensures MayBeConfirmed(st, s) <==> s in st.phrases.left && !(s in st.pairs.left && st.pairs.left[s] == s)
  {
    if Hopeless(st, s) {
      forall events: seq<Event> | Legal(events) && Others(s, events)
        ensures Successes(s, PostsOf(st, events)) == 0
      {
        HopelessAlong(st, events, s);
      }
    } else if s in st.pairs.left {
      var r := st.pairs.left[s];
      if r in st.sessions {
        LeaveSession(st, r, s);
        AfterFinish(React(st, Handled(r, Control(ABORT), {})).store, r, s);
        EventFirst(st, Handled(r, Control(ABORT), {}), s);
      } else {
        AfterFinish(st, r, s);
      }
    } else {
      var c := Fresh(st.sessions.Keys + st.pairs.right.Keys + {s});
      FreshClaim(st, s, c);
      var claim := Handled(c, ClaimMessage(st.contexts[s].pre.phrase), {});
      AfterFinish(React(st, claim).store, c, s);
      EventFirst(st, claim, s);
    }
  }
}
