/** The relay on real connections: every channel is a write pump, a wire whose bytes arrive one by
    one, and a queue of messages that were read and not yet taken. Each run of it is a run of the
    relay, so that what every relay run promises holds on the wires. */
module WiredRelay {
  import opened NetMessage
  import opened Framing
  import opened Links
  import opened Server
  import opened Sessions
  import opened Relay
  import opened RelayInvariant
  import opened RelayRuns
  import opened RelayChannels
  import opened EndToEnd
  import opened Transfers
  import P = WritePump
  import C = Channel

  /** One direction of a connection: the write pump, and how many of its bytes have arrived. */
  datatype Line = Line(pump: P.Pump, arrived: nat)

  datatype Way = ToServer | ToClient

  /** The programs, and the lines under their channels. */
  datatype Wired = Wired(world: World, up: map<Conn, Line>, down: map<Conn, Line>) {
    function Lines(way: Way): map<Conn, Line> {
      if way == ToServer then up else down
    }

    function Put(way: Way, c: Conn, line: Line): Wired {
      if way == ToServer then this.(up := up[c := line]) else this.(down := down[c := line])
    }
  }

  const NOTHING_WIRED := Wired(EMPTY_WORLD, map[], map[])
  const NEW_LINE := Line(P.START, 0)

  /** What the peer has read so far; what a program has not yet taken of it waits in its queue. */
  function Read(line: Line): seq<Message> {
    if line.arrived <= |line.pump.wire| then C.PeerReads(line.pump, line.arrived) else []
  }

  function LinkAt(way: Way, p: Peer): Link {
    if way == ToServer then UpLink(p) else DownLink(p)
  }

  // ---------- the steps ----------

  datatype Step =
    | Io(c: Conn, way: Way, a: P.Action)       // a step of a thread of the connection
    | Byte(c: Conn, way: Way)                  // one more byte arrives
    | Notice(c: Conn, way: Way)                // the end that no longer accepts sends is seen closed
    | Program(act: Action)                     // a step of a client or of the server

  /** A program's send is the post of a call that found the connection open, and a program takes only
      what was read. */
  predicate Carries(line: Line, a: Link, b: Link) {
    && (|b.sent| > |a.sent| ==> P.Enabled(line.pump, P.PostSend(b.sent[|a.sent|])))
    && (b.taken > a.taken ==> a.taken < |Read(line)|)
  }

  ghost predicate CanDo(h: HashFn, w: Wired, s: Step) {
    match s
    case Io(c, way, a) => c in w.Lines(way) && P.Enabled(w.Lines(way)[c].pump, a) && !a.PostSend?
    case Byte(c, way) => c in w.Lines(way) && w.Lines(way)[c].arrived < |w.Lines(way)[c].pump.wire|
    case Notice(c, way) => c in w.Lines(way) && c in w.world.peers && !C.Accepts(w.Lines(way)[c].pump)
    case Program(a) =>
      && Enabled(w.world, a) && !a.ClientCloses? && !a.ServerCloses?
      && forall c, way | c in w.Lines(way) && c in w.world.peers && c in Apply(h, w.world, a).peers ::
           Carries(w.Lines(way)[c], LinkAt(way, w.world.peers[c]), LinkAt(way, Apply(h, w.world, a).peers[c]))
  }

  /** A line after its program may have sent. */
  function Carried(line: Line, a: Link, b: Link): Line
    requires Carries(line, a, b)
  {
    if |b.sent| > |a.sent| then line.(pump := P.Apply(line.pump, P.PostSend(b.sent[|a.sent|]))) else line
  }

  ghost function CarriedAll(h: HashFn, w: Wired, a: Action, way: Way): map<Conn, Line>
    requires CanDo(h, w, Program(a))
  {
    map c | c in Apply(h, w.world, a).peers ::
      if c in w.Lines(way) && c in w.world.peers
      then Carried(w.Lines(way)[c], LinkAt(way, w.world.peers[c]), LinkAt(way, Apply(h, w.world, a).peers[c]))
      else NEW_LINE
  }

  function Acts(line: Line, a: P.Action): Line
    requires P.Enabled(line.pump, a)
  {
    line.(pump := P.Apply(line.pump, a))
  }

  function OneByte(line: Line): Line {
    line.(arrived := line.arrived + 1)
  }

  ghost function Do(h: HashFn, w: Wired, s: Step): Wired
    requires CanDo(h, w, s)
  {
    match s
    case Io(c, way, a) => w.Put(way, c, Acts(w.Lines(way)[c], a))
    case Byte(c, way) => w.Put(way, c, OneByte(w.Lines(way)[c]))
    case Notice(c, way) => w.(world := Closed(w.world, c, way))
    case Program(a) => Wired(Apply(h, w.world, a), CarriedAll(h, w, a, ToServer), CarriedAll(h, w, a, ToClient))
  }

  function Closed(w: World, c: Conn, way: Way): World
    requires c in w.peers
  {
    var p := w.peers[c];
    w.(peers := w.peers[c := if way == ToServer then p.(clientOpen := false) else p.(serverOpen := false)])
  }

  ghost predicate IsWiredRun(h: HashFn, run: seq<Wired>, steps: seq<Step>) {
    && |run| == |steps| + 1
    && run[0] == NOTHING_WIRED
    && forall i :: 0 <= i < |steps| ==> CanDo(h, run[i], steps[i]) && run[i + 1] == Do(h, run[i], steps[i])
  }

  // ---------- lines and channels agree ----------

  /** The pump has posted what the channel says was sent, the program has taken no more than was read,
      and a channel that is closed accepts no more. */
  ghost predicate LineOk(line: Line, link: Link) {
    && P.Reachable(line.pump)
    && line.arrived <= |line.pump.wire|
    && line.pump.posted == link.sent
    && link.taken <= |Read(line)|
    && (C.Accepts(line.pump) ==> link.open)
  }

  ghost predicate WayOk(lines: map<Conn, Line>, peers: map<Conn, Peer>, way: Way) {
    && lines.Keys == peers.Keys
    && forall c :: c in lines ==> LineOk(lines[c], LinkAt(way, peers[c]))
  }

  ghost predicate WiredOk(w: Wired) {
    WayOk(w.up, w.world.peers, ToServer) && WayOk(w.down, w.world.peers, ToClient)
  }

  lemma PumpReaches(p: P.Pump, a: P.Action)
    requires P.Reachable(p) && P.Enabled(p, a)
    ensures P.Reachable(P.Apply(p, a))
  {
    var run, actions :| P.IsRun(run, actions) && run[|actions|] == p;
    var run', actions' := run + [P.Apply(p, a)], actions + [a];
    forall i | 0 <= i < |actions'|
      ensures P.Enabled(run'[i], actions'[i]) && run'[i + 1] == P.Apply(run'[i], actions'[i])
    {
      if i < |actions| {
        assert run'[i] == run[i] && run'[i + 1] == run[i + 1] && actions'[i] == actions[i];
      }
    }
    assert P.IsRun(run', actions') && run'[|actions'|] == P.Apply(p, a);
  }

  lemma NewLineOk(link: Link)
    requires link == Link([], 0, true)
    ensures LineOk(NEW_LINE, link)
  {
    var none: seq<P.Action> := [];
    assert P.IsRun([P.START], none) && [P.START][|none|] == P.START;
  }

  lemma IoOk(line: Line, a: P.Action, link: Link)
    requires LineOk(line, link) && P.Enabled(line.pump, a) && !a.PostSend?
    ensures LineOk(Acts(line, a), link)
  {
    PumpReaches(line.pump, a);
    C.ReachableWire(line.pump);
    C.SameReads(line.pump, a, line.arrived);
    C.SentGrows(line.pump, a);
  }

  lemma ByteOk(line: Line, link: Link)
    requires LineOk(line, link) && line.arrived < |line.pump.wire|
    requires forall m :: m in link.sent ==> Sendable(m)
    ensures LineOk(OneByte(line), link)
  {
    C.ByteMovesLink(line.pump, line.arrived);
  }

  lemma PostOk(line: Line, m: Message, link: Link)
    requires LineOk(line, link) && P.Enabled(line.pump, P.PostSend(m))
    ensures LineOk(line.(pump := P.Apply(line.pump, P.PostSend(m))), link.(sent := link.sent + [m]))
  {
    PumpReaches(line.pump, P.PostSend(m));
    C.ReachableWire(line.pump);
    C.SameReads(line.pump, P.PostSend(m), line.arrived);
    C.SentGrows(line.pump, P.PostSend(m));
  }

  lemma CarriedOk(line: Line, a: Link, b: Link)
    requires LineOk(line, a) && LinkStep(a, b) && Carries(line, a, b) && (a.open ==> b.open)
    ensures LineOk(Carried(line, a, b), b)
  {
    if |b.sent| > |a.sent| {
      PostOk(line, b.sent[|a.sent|], a);
    }
  }

  // ---------- every step ----------

  lemma WorldReaches(h: HashFn, w: World, a: Action)
    requires Reachable(h, w) && Enabled(w, a)
    ensures Reachable(h, Apply(h, w, a))
  {
    var w' := StepReaches(h, w, a);
  }

  /** The channels of a reachable relay fit their frames. */
  lemma ChannelsSendable(h: HashFn, w: World, c: Conn, way: Way)
    requires Reachable(h, w) && c in w.peers
    ensures forall m :: m in LinkAt(way, w.peers[c]).sent ==> Sendable(m)
  {
    ReachableInv(h, w);
    assert ClientInv(h, w.peers[c]);
    forall m | m in LinkAt(way, w.peers[c]).sent
      ensures Sendable(m)
    {
      if way == ToServer {
        assert Fit(m);
      } else {
        assert Sound(m);
      }
    }
  }

  /** A step of a program closes nothing, and moves every channel by a link step. */
  lemma ProgramMoves(h: HashFn, w: World, a: Action, c: Conn, way: Way)
    requires Enabled(w, a) && !a.ClientCloses? && !a.ServerCloses? && c in w.peers
    ensures c in Apply(h, w, a).peers
    ensures var x, y := LinkAt(way, w.peers[c]), LinkAt(way, Apply(h, w, a).peers[c]);
            LinkStep(x, y) && (x.open ==> y.open)
  {
    StepMovesLinks(h, w, a, c);
    StaysOpen(h, w, a, c);
  }

  lemma StaysOpen(h: HashFn, w: World, a: Action, c: Conn)
    requires Enabled(w, a) && !a.ClientCloses? && !a.ServerCloses? && c in w.peers
    ensures c in Apply(h, w, a).peers
    ensures SameEnds(w.peers[c], Apply(h, w, a).peers[c])
  {
    if a.ServerHandles? {
      HandlingStaysOpen(w, a.c, c);
    } else if !a.Join? && !a.ServerForgets? && a.c == c {
      ClientStaysOpen(h, w.peers[c], a);
    }
  }

  predicate SameEnds(p: Peer, q: Peer) {
    q.clientOpen == p.clientOpen && q.serverOpen == p.serverOpen
  }

  lemma HandlingStaysOpen(w: World, c: Conn, x: Conn)
    requires Enabled(w, ServerHandles(c)) && x in w.peers
    ensures SameEnds(w.peers[x], HandleNext(w, c).peers[x])
  {
    var m := w.peers[c].up[w.peers[c].upDone];
    StaysOpenAfter(w.peers, c, Handle(w.store, OpenSet(w.peers), c, m).posts, x);
  }

  lemma StaysOpenAfter(peers: map<Conn, Peer>, c: Conn, posts: seq<Post>, x: Conn)
    requires x in peers
    ensures SameEnds(peers[x], AfterHandling(peers, c, posts)[x])
  {
  }

  lemma ClientStaysOpen(h: HashFn, p: Peer, a: Action)
    requires CanStep(p, a) && !a.ClientCloses? && !a.ServerCloses?
    ensures SameEnds(p, ClientStep(h, p, a))
  {
  }

  lemma ProgramKeepsLine(h: HashFn, w: Wired, a: Action, c: Conn, way: Way)
    requires WayOk(w.Lines(way), w.world.peers, way) && CanDo(h, w, Program(a)) && c in Apply(h, w.world, a).peers
    ensures LineOk(CarriedAll(h, w, a, way)[c], LinkAt(way, Apply(h, w.world, a).peers[c]))
  {
    if c in w.world.peers {
      ProgramMoves(h, w.world, a, c, way);
      CarriedOk(w.Lines(way)[c], LinkAt(way, w.world.peers[c]), LinkAt(way, Apply(h, w.world, a).peers[c]));
    } else {
      NewPeer(h, w.world, a, c);
      NewLineOk(LinkAt(way, Apply(h, w.world, a).peers[c]));
    }
  }

  lemma NewPeer(h: HashFn, w: World, a: Action, c: Conn)
    requires Enabled(w, a) && c !in w.peers && c in Apply(h, w, a).peers
    ensures UpLink(Apply(h, w, a).peers[c]) == Link([], 0, true)
    ensures DownLink(Apply(h, w, a).peers[c]) == Link([], 0, true)
  {
  }

  lemma ProgramKeepsWay(h: HashFn, w: Wired, a: Action, way: Way)
    requires WayOk(w.Lines(way), w.world.peers, way) && CanDo(h, w, Program(a))
    ensures WayOk(CarriedAll(h, w, a, way), Apply(h, w.world, a).peers, way)
  {
    forall c | c in Apply(h, w.world, a).peers
      ensures LineOk(CarriedAll(h, w, a, way)[c], LinkAt(way, Apply(h, w.world, a).peers[c]))
    {
      ProgramKeepsLine(h, w, a, c, way);
    }
  }

  lemma ProgramStep(h: HashFn, w: Wired, a: Action)
    requires WiredOk(w) && CanDo(h, w, Program(a))
    ensures WiredOk(Do(h, w, Program(a)))
  {
    ProgramKeepsWay(h, w, a, ToServer);
    ProgramKeepsWay(h, w, a, ToClient);
  }

  /** One value of a map changes, and what holds of every value keeps holding. */
  lemma MapStep<A, B>(m: map<Conn, A>, n: map<Conn, B>, c: Conn, a: A, ok: (A, B) -> bool)
    requires m.Keys == n.Keys && c in m
    requires forall x :: x in m ==> ok(m[x], n[x])
    requires ok(a, n[c])
    ensures m[c := a].Keys == n.Keys
    ensures forall x :: x in m[c := a] ==> ok(m[c := a][x], n[x])
  {
  }

  lemma LineStep(lines: map<Conn, Line>, peers: map<Conn, Peer>, way: Way, c: Conn, line: Line)
    requires WayOk(lines, peers, way) && c in lines && LineOk(line, LinkAt(way, peers[c]))
    ensures WayOk(lines[c := line], peers, way)
  {
    ghost var ok := (l: Line, p: Peer) => LineOk(l, LinkAt(way, p));
    MapStep(lines, peers, c, line, ok);
    forall x | x in lines[c := line]
      ensures LineOk(lines[c := line][x], LinkAt(way, peers[x]))
    {
      assert ok(lines[c := line][x], peers[x]);
    }
  }

  lemma LineChanges(w: Wired, c: Conn, way: Way, line: Line)
    requires WiredOk(w) && c in w.Lines(way) && LineOk(line, LinkAt(way, w.world.peers[c]))
    ensures WiredOk(w.Put(way, c, line))
  {
    if way == ToServer {
      LineStep(w.up, w.world.peers, ToServer, c, line);
    } else {
      LineStep(w.down, w.world.peers, ToClient, c, line);
    }
  }

  lemma KnownLine(w: Wired, c: Conn, way: Way)
    requires WiredOk(w) && c in w.Lines(way)
    ensures c in w.world.peers && LineOk(w.Lines(way)[c], LinkAt(way, w.world.peers[c]))
  {
  }

  /** Closing one end changes one link of one connection. */
  lemma CloseWay(lines: map<Conn, Line>, w: World, c: Conn, closing: Way, way: Way)
    requires WayOk(lines, w.peers, way) && c in w.peers
    requires closing == way ==> !C.Accepts(lines[c].pump)
    ensures WayOk(lines, Closed(w, c, closing).peers, way)
  {
    var peers := Closed(w, c, closing).peers;
    CloseLink(w.peers[c], closing, way);
    ClosedLineOk(lines[c], LinkAt(way, w.peers[c]), closing == way);
    ghost var ok := (p: Peer, l: Line) => LineOk(l, LinkAt(way, p));
    MapStep(w.peers, lines, c, peers[c], ok);
    forall x | x in lines
      ensures LineOk(lines[x], LinkAt(way, peers[x]))
    {
      assert ok(peers[x], lines[x]);
    }
  }

  lemma ClosedLineOk(line: Line, link: Link, closes: bool)
    requires LineOk(line, link) && (closes ==> !C.Accepts(line.pump))
    ensures LineOk(line, if closes then link.(open := false) else link)
  {
  }

  lemma CloseLink(p: Peer, closing: Way, way: Way)
    ensures var q := if closing == ToServer then p.(clientOpen := false) else p.(serverOpen := false);
            LinkAt(way, q) == if closing == way then LinkAt(way, p).(open := false) else LinkAt(way, p)
  {
  }

  lemma NoticeStep(w: Wired, c: Conn, way: Way)
    requires WiredOk(w) && c in w.Lines(way) && c in w.world.peers && !C.Accepts(w.Lines(way)[c].pump)
    ensures WiredOk(w.(world := Closed(w.world, c, way)))
  {
    CloseWay(w.up, w.world, c, way, ToServer);
    CloseWay(w.down, w.world, c, way, ToClient);
  }

  lemma ClosedReaches(h: HashFn, w: World, c: Conn, way: Way)
    requires Reachable(h, w) && c in w.peers
    ensures Reachable(h, Closed(w, c, way))
  {
    var p := w.peers[c];
    if way == ToServer && p.clientOpen {
      WorldReaches(h, w, ClientCloses(c));
    } else if way == ToClient && p.serverOpen {
      WorldReaches(h, w, ServerCloses(c));
    } else {
      assert w.peers[c := p] == w.peers;
    }
  }

  lemma WorldStep(h: HashFn, w: Wired, s: Step)
    requires Reachable(h, w.world) && CanDo(h, w, s)
    ensures Reachable(h, Do(h, w, s).world)
  {
    match s
    case Io(_, _, _) =>
    case Byte(_, _) =>
    case Notice(c, way) => ClosedReaches(h, w.world, c, way);
    case Program(a) => WorldReaches(h, w.world, a);
  }

  lemma ByteKept(h: HashFn, w: World, c: Conn, way: Way, line: Line)
    requires Reachable(h, w) && c in w.peers
    requires LineOk(line, LinkAt(way, w.peers[c])) && line.arrived < |line.pump.wire|
    ensures LineOk(OneByte(line), LinkAt(way, w.peers[c]))
  {
    ChannelsSendable(h, w, c, way);
    ByteOk(line, LinkAt(way, w.peers[c]));
  }

  lemma WiredStep(h: HashFn, w: Wired, s: Step)
    requires WiredOk(w) && Reachable(h, w.world) && CanDo(h, w, s)
    ensures WiredOk(Do(h, w, s))
  {
    match s
    case Io(c, way, a) =>
      KnownLine(w, c, way);
      IoOk(w.Lines(way)[c], a, LinkAt(way, w.world.peers[c]));
      LineChanges(w, c, way, Acts(w.Lines(way)[c], a));
    case Byte(c, way) =>
      KnownLine(w, c, way);
      ByteKept(h, w.world, c, way, w.Lines(way)[c]);
      LineChanges(w, c, way, OneByte(w.Lines(way)[c]));
    case Notice(c, way) => NoticeStep(w, c, way);
    case Program(a) => ProgramStep(h, w, a);
  }

  /** Every run on real connections is a run of the relay, and its channels are what the connections
      have posted and read. */
  lemma {:induction false} WiredRefines(h: HashFn, run: seq<Wired>, steps: seq<Step>, i: nat)
    requires IsWiredRun(h, run, steps) && i <= |steps|
    ensures WiredOk(run[i]) && Reachable(h, run[i].world)
  {
    if i > 0 {
      WiredRefines(h, run, steps, i - 1);
      WiredStep(h, run[i - 1], steps[i - 1]);
      WorldStep(h, run[i - 1], steps[i - 1]);
    } else {
      EmptyReaches(h);
    }
  }

  /** What a program takes next is the next message that was read from the bytes. */
  lemma ProgramsTakeWhatWasRead(h: HashFn, run: seq<Wired>, steps: seq<Step>, i: nat, c: Conn, way: Way)
    requires IsWiredRun(h, run, steps) && i <= |steps| && c in run[i].Lines(way)
    ensures c in run[i].world.peers
    ensures var link, read := LinkAt(way, run[i].world.peers[c]), Read(run[i].Lines(way)[c]);
            read <= link.sent && link.taken <= |read|
  {
    WiredRefines(h, run, steps, i);
    ChannelsSendable(h, run[i].world, c, way);
    C.FifoChannel(run[i].Lines(way)[c].pump, run[i].Lines(way)[c].arrived);
  }

  /** The end-to-end theorem on real connections: threads and bytes interleave as they like. */
  lemma ConfirmedOnWires(h: HashFn, run: seq<Wired>, steps: seq<Step>, i: nat, s: Conn)
    requires IsWiredRun(h, run, steps) && i <= |steps|
    requires var w := run[i].world;
             s in w.peers && w.peers[s].role.Sender? && w.peers[s].role.pc == Returned(true)
    ensures var w := run[i].world;
            && s in w.confirmed && w.confirmed[s] in w.peers
            && var sender, receiver := w.peers[s].role, w.peers[w.confirmed[s]].role;
               receiver.Receiver? ==>
                 && receiver.recv.out <= sender.file
                 && (receiver.recv.out == sender.file <==> |Chunks(sender.file, MAX_CHUNK)| <= receiver.disk)
  {
    WiredRefines(h, run, steps, i);
    ConfirmedMeansDelivered(h, run[i].world, s);
  }
}
