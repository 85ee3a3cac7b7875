/** The whole system: any number of clients around the server, joined by first-in first-out
    channels that may close at any time. Clients follow the sender (sender.cpp) or the receiver
    (receiver.cpp) program, or are rogues that send what they like.

    Channel.FifoChannel is why a channel is a sequence read in order: what is delivered is a
    prefix of what was sent. A closed end refuses further sends and never opens again. */
module Relay {
  import opened Bytes
  import opened NetMessage
  import opened Codec
  import opened Server
  import opened Sessions
  import opened Disks

  /** Where sendRoutine stands. Skipping: it took a message that is neither Accept nor Reject. */
  datatype SenderPc =
    | Start | Waiting | Skipping | Sending | Finishing(ok: bool) | Confirming | Returned(result: bool)

  /** Where receiveRoutine stands. */
  datatype ReceiverPc =
    | Begin | AwaitReply | Draining | Prompting | Opening | Looping | Finished
    | Declined | Failed | Confirmed

  /** A receiver's disk takes `disk` writes; `writes` is how many were tried. */
  datatype Role =
    | Sender(file: seq<byte>, pre: PreMetadata, size: nat, rest: seq<byte>, pc: SenderPc)
    | Receiver(code: CodePhrase, junkSize: uint64, junkNameSize: byte, disk: nat,
               rpc: ReceiverPc, recv: Recv, writes: nat)
    | Rogue
  {
    /** The output stream has gone bad. */
    predicate Broken() requires Receiver? { writes > disk }
  }

  /** A connection: its client, what the client sent and how much of it the server has handled,
      what the server sent and how much of it the client has taken, and whether each end still
      accepts sends. */
  datatype Peer = Peer(
    role: Role,
    up: seq<Message>, upDone: nat,
    down: seq<Message>, downDone: nat,
    clientOpen: bool, serverOpen: bool)

  /** Claims and confirmations are history: which sender a claim reached, and whose
      FinishReceive caused the last Success of a sender. */
  datatype World = World(
    store: Store,
    peers: map<Conn, Peer>,
    claims: map<Conn, Conn>,
    confirmed: map<Conn, Conn>)

  const EMPTY_WORLD := World(EMPTY_STORE, map[], map[], map[])

  // ---------- the messages of the two programs ----------

  function SendMessage(pre: PreMetadata): Message {
    Message(SEND, EncodePre(pre))
  }

  /** The file fields of a request are not initialised. */
  function RequestMessage(code: CodePhrase, junkSize: uint64, junkNameSize: byte): Message {
    Message(REQUEST_RECEIVE, EncodePre(PreMetadata(0, code, FileData(junkSize, junkNameSize, []))))
  }

  function ClaimMessage(code: CodePhrase): Message {
    Message(RECEIVE, EncodePhrase(code))
  }

  /** What the transport carries and the server can decode. */
  predicate Fit(m: Message) {
    Decodable(m) && |m.body| < TWO32
  }

  // ---------- the steps ----------

  datatype Action =
    | Join(c: Conn, role: Role)
    | ClientCloses(c: Conn)
    | ServerCloses(c: Conn)
    | RogueSends(c: Conn, msg: Message)
    | SenderSends(c: Conn)                        // establishSession sends its metadata
    | Pops(c: Conn, kept: nat)                    // a client takes the next message; if its disk
                                                  // is full, the write that fails keeps a part
    | QueueEmpty(c: Conn, size: nat)              // a client finds its queue empty
    | SenderReads(c: Conn)                        // one turn of the chunk loop
    | SenderEnds(c: Conn)                         // the FinalChunk after the loop
    | ReceiverAsks(c: Conn)
    | ReceiverAnswers(c: Conn, yes: bool)
    | ReceiverOpens(c: Conn, success: bool)
    | ReceiverConfirms(c: Conn)
    | ServerHandles(c: Conn)
    | ServerForgets(c: Conn)

  predicate Initial(role: Role) {
    match role
    case Sender(file, pre, _, rest, pc) =>
      pc == Start && rest == file && pre.Sized() && pre.file.fileSize == |file|
    case Receiver(code, _, _, _, rpc, recv, writes) =>
      rpc == Begin && recv == NOTHING && writes == 0 && code.Sized()
    case Rogue => true
  }

  predicate CanPop(p: Peer) {
    && p.downDone < |p.down|
    && match p.role
       case Sender(_, _, _, _, pc) => pc == Waiting || pc == Skipping || pc == Sending || pc == Confirming
       case Receiver(_, _, _, _, rpc, _, _) => rpc == AwaitReply || rpc == Draining || rpc == Looping
       case Rogue => true
  }

  predicate CanStep(p: Peer, a: Action) {
    match a
    case Join(_, _) => false
    case ClientCloses(_) => p.clientOpen
    case ServerCloses(_) => p.serverOpen
    case RogueSends(_, m) => p.role.Rogue? && p.clientOpen && Fit(m)
    case SenderSends(_) => p.role.Sender? && p.role.pc == Start
    case Pops(_, _) => CanPop(p)
    case QueueEmpty(_, _) =>
      || (p.role.Sender? && p.role.pc == Skipping)
      || (p.role.Receiver? && (p.role.rpc == Draining || (p.role.rpc == Looping && p.role.Broken())))
    case SenderReads(_) => p.role.Sender? && p.role.pc == Sending
    case SenderEnds(_) => p.role.Sender? && p.role.pc.Finishing?
    case ReceiverAsks(_) => p.role.Receiver? && p.role.rpc == Begin
    case ReceiverAnswers(_, _) => p.role.Receiver? && p.role.rpc == Prompting
    case ReceiverOpens(_, _) => p.role.Receiver? && p.role.rpc == Opening
    case ReceiverConfirms(_) => p.role.Receiver? && p.role.rpc == Finished
    case ServerHandles(_) => p.upDone < |p.up| && Decodable(p.up[p.upDone])
    case ServerForgets(_) => true
  }

  predicate Enabled(w: World, a: Action) {
    if a.Join? then a.c !in w.peers && Initial(a.role)
    else a.c in w.peers && CanStep(w.peers[a.c], a)
  }

  /** A client's send. */
  function Sends(p: Peer, m: Message): Peer {
    if p.clientOpen then p.(up := p.up + [m]) else p
  }

  function SenderPops(role: Role, m: Message): Role
    requires role.Sender?
  {
    match role.pc
    case Sending => if m.id == ABORT then role.(pc := Finishing(false)) else role
    case Confirming =>
      if m.id == ABORT then role.(pc := Returned(false))
      else if m.id == SUCCESS then role.(pc := Returned(true))
      else role
    case _ =>
      if m.id == REJECT then role.(pc := Returned(false))
      else if m.id == ACCEPT then
        match DecodePost(m.body)
        case Popped(post, _) => role.(pc := Sending, size := post.maxChunk)
        case Short => role.(pc := Returned(false))
      else role.(pc := Skipping)
  }

  /** One message of the receiving loop. The write after the last that the disk takes fails and
      keeps less than its data, and later ones are lost. */
  function Writes(h: HashFn, role: Role, m: Message, kept: nat): Role
    requires role.Receiver?
  {
    var data := Gain(h, role.recv, m);
    var stored := if role.writes < role.disk then data else if role.writes == role.disk then Part(data, kept) else [];
    var recv := Take(h, role.recv, m).(out := role.recv.out + stored);
    role.(recv := recv, writes := role.writes + (if data == [] then 0 else 1),
          rpc := if recv.failed then Failed else if recv.finished then Finished else Looping)
  }

  function ReceiverPops(h: HashFn, role: Role, m: Message, kept: nat): Role
    requires role.Receiver?
  {
    if role.rpc == Looping then Writes(h, role, m, kept)
    else if m.id == REJECT then role.(rpc := Failed)
    else if m.id == ACCEPT then role.(rpc := Prompting)
    else role.(rpc := Draining)
  }

  function PopsNext(h: HashFn, p: Peer, kept: nat): Peer
    requires CanPop(p)
  {
    var m := p.down[p.downDone];
    p.(downDone := p.downDone + 1,
       role := match p.role
               case Sender(_, _, _, _, _) => SenderPops(p.role, m)
               case Receiver(_, _, _, _, _, _, _) => ReceiverPops(h, p.role, m, kept)
               case Rogue => Rogue)
  }

  /** Read a chunk and send it; the loop ends on an empty read, a failed send or a short read. */
  function ReadsChunk(h: HashFn, p: Peer): Peer
    requires p.role.Sender?
  {
    var n := ReadCount(p.role.rest, p.role.size);
    if n == 0 then p.(role := p.role.(pc := Finishing(true)))
    else
      var next := if !p.clientOpen then Finishing(false)
                  else if n < p.role.size then Finishing(true)
                  else Sending;
      Sends(p, ChunkMessage(h, p.role.rest[..n])).(role := p.role.(rest := p.role.rest[n..], pc := next))
  }

  function ClientStep(h: HashFn, p: Peer, a: Action): Peer
    requires CanStep(p, a)
  {
    match a
    case ClientCloses(_) => p.(clientOpen := false)
    case ServerCloses(_) => p.(serverOpen := false)
    case RogueSends(_, m) => Sends(p, m)
    case SenderSends(_) =>
      Sends(p, SendMessage(p.role.pre)).(role := p.role.(pc := if p.clientOpen then Waiting else Returned(false)))
    case Pops(_, kept) => PopsNext(h, p, kept)
    case QueueEmpty(_, size) =>
      if p.role.Sender? then p.(role := p.role.(pc := Sending, size := size))
      else p.(role := p.role.(rpc := if p.role.rpc == Looping then Finished else Prompting))
    case SenderReads(_) => ReadsChunk(h, p)
    case SenderEnds(_) =>
      Sends(p, FINAL).(role := p.role.(pc := if p.role.pc.ok then Confirming else Returned(false)))
    case ReceiverAsks(_) =>
      Sends(p, RequestMessage(p.role.code, p.role.junkSize, p.role.junkNameSize)).(role := p.role.(rpc := AwaitReply))
    case ReceiverAnswers(_, yes) =>
      if yes then Sends(p, ClaimMessage(p.role.code)).(role := p.role.(rpc := Opening))
      else p.(role := p.role.(rpc := Declined))
    case ReceiverOpens(_, success) =>
      if success then p.(role := p.role.(rpc := Looping))
      else Sends(p, Control(FAILED_RECEIVE)).(role := p.role.(rpc := Failed))
    case ReceiverConfirms(_) => Sends(p, Control(FINISH_RECEIVE)).(role := p.role.(rpc := Confirmed))
    case _ => p
  }

  /** The connections whose server end accepts sends. */
  function OpenSet(peers: map<Conn, Peer>): set<Conn> {
    set c | c in peers && peers[c].serverOpen
  }

  /** A handler sends at most one message; this one is for c. */
  predicate SentTo(posts: seq<Post>, c: Conn) {
    posts != [] && posts[0].to == c
  }

  /** What the server's sends add to the channels. */
  function Delivered(p: Peer, c: Conn, posts: seq<Post>): Peer {
    if SentTo(posts, c) then p.(down := p.down + [posts[0].msg]) else p
  }

  /** The server has handled one more message of c and made its sends. */
  function AfterHandling(peers: map<Conn, Peer>, c: Conn, posts: seq<Post>): map<Conn, Peer> {
    map x | x in peers ::
      Delivered(if x == c then peers[x].(upDone := peers[x].upDone + 1) else peers[x], x, posts)
  }

  predicate Claims(st: Store, c: Conn, m: Message)
    requires Decodable(m)
  {
    c !in st.sessions && m.id == RECEIVE && DecodePhrase(m.body).value.code in st.phrases.right
  }

  function NextClaims(st: Store, claims: map<Conn, Conn>, c: Conn, m: Message): map<Conn, Conn>
    requires Decodable(m)
  {
    if Claims(st, c, m) then claims[c := st.phrases.right[DecodePhrase(m.body).value.code]] else claims
  }

  function NextConfirmed(confirmed: map<Conn, Conn>, c: Conn, posts: seq<Post>): map<Conn, Conn> {
    if posts != [] && posts[0].msg.id == SUCCESS then confirmed[posts[0].to := c] else confirmed
  }

  function HandleNext(w: World, c: Conn): World
    requires Enabled(w, ServerHandles(c))
  {
    var m := w.peers[c].up[w.peers[c].upDone];
    var o := Handle(w.store, OpenSet(w.peers), c, m);
    World(o.store, AfterHandling(w.peers, c, o.posts),
          NextClaims(w.store, w.claims, c, m), NextConfirmed(w.confirmed, c, o.posts))
  }

  function Apply(h: HashFn, w: World, a: Action): World
    requires Enabled(w, a)
  {
    match a
    case Join(c, role) => w.(peers := w.peers[c := Peer(role, [], 0, [], 0, true, true)])
    case ServerHandles(c) => HandleNext(w, c)
    case ServerForgets(c) => w.(store := React(w.store, Gone(c)).store)
    case _ => w.(peers := w.peers[a.c := ClientStep(h, w.peers[a.c], a)])
  }

  // ---------- runs ----------

  ghost predicate IsRun(h: HashFn, run: seq<World>, actions: seq<Action>) {
    && |run| == |actions| + 1
    && run[0] == EMPTY_WORLD
    && forall i :: 0 <= i < |actions| ==> Enabled(run[i], actions[i]) && run[i + 1] == Apply(h, run[i], actions[i])
  }

  ghost predicate Reachable(h: HashFn, w: World) {
    exists run, actions :: IsRun(h, run, actions) && run[|actions|] == w
  }
}
