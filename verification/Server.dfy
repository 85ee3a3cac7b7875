/** The message handlers of server.cpp as functions of the storage. A connection is known by its
    identity; `open` is the set of connections whose `send` succeeds while a message is handled. */
module Server {
  import opened Bytes
  import opened NetMessage
  import opened Codec

  type Conn = nat

  const MAX_CHUNK: uint64 := 512

  // ---------- the storage ----------

  /** boost::bimap: two views that are each other's inverse; an insert that would break this
      does nothing. */
  datatype Bimap<A(==), B(==)> = Bimap(left: map<A, B>, right: map<B, A>) {
    ghost predicate Valid() {
      && (forall a :: a in left ==> left[a] in right && right[left[a]] == a)
      && (forall b :: b in right ==> right[b] in left && left[right[b]] == b)
    }

    function Insert(a: A, b: B): Bimap<A, B> {
      if a in left || b in right then this else Bimap(left[a := b], right[b := a])
    }

    function EraseLeft(a: A): Bimap<A, B> {
      if a in left then Bimap(left - {a}, right - {left[a]}) else this
    }
  }

  datatype Context = Context(pre: PreMetadata, post: PostMetadata)

  /** A session relays to its sink; the sizes it also stores are never read. */
  datatype Store = Store(
    phrases: Bimap<Conn, seq<byte>>,    // sender <-> phrase
    contexts: map<Conn, Context>,       // sender -> context
    pairs: Bimap<Conn, Conn>,           // sender <-> receiver
    sessions: map<Conn, Conn>)          // sender -> sink of its session
  {
    function RemovePendingSender(c: Conn): Store {
      this.(phrases := phrases.EraseLeft(c), contexts := contexts - {c})
    }

    function AddPendingSender(c: Conn, pre: PreMetadata): Store {
      var post := PostMetadata(pre.payload, MAX_CHUNK, pre.phrase, pre.file);
      this.(phrases := phrases.Insert(c, pre.phrase.code),
            contexts := if c in contexts then contexts else contexts[c := Context(pre, post)])
    }

    function RemoveSession(c: Conn): Store {
      this.(sessions := sessions - {c}, pairs := pairs.EraseLeft(c))
    }

    function AddSession(sender: Conn, receiver: Conn): Store {
      this.(pairs := pairs.Insert(sender, receiver),
            sessions := if sender in sessions then sessions else sessions[sender := receiver])
    }

    /** The sender leaves all four maps. */
    function Drop(c: Conn): Store {
      RemovePendingSender(c).RemoveSession(c)
    }
  }

  const EMPTY_STORE := Store(Bimap(map[], map[]), map[], Bimap(map[], map[]), map[])

  // ---------- the handlers ----------

  datatype Post = Post(to: Conn, msg: Message)

  /** What a handler does to connections: a message that left, or a call of disconnectAfterFlush. */
  datatype Effect = Posted(to: Conn, msg: Message) | CloseAfterFlush(c: Conn)

  function PostedAll(posts: seq<Post>): seq<Effect> {
    if posts == [] then [] else [Posted(posts[0].to, posts[0].msg)] + PostedAll(posts[1..])
  }

  function CloseAll(closing: seq<Conn>): seq<Effect> {
    if closing == [] then [] else [CloseAfterFlush(closing[0])] + CloseAll(closing[1..])
  }

  /** What a handler leaves: the storage, the messages it sent, and the connections it told to
      close once flushed. It sends before it closes. */
  datatype Outcome = Outcome(store: Store, posts: seq<Post>, closing: seq<Conn>) {
    function Effects(): seq<Effect> {
      PostedAll(posts) + CloseAll(closing)
    }
  }

  /** A send: it leaves a message only on an open connection. */
  function Offer(open: set<Conn>, to: Conn, msg: Message): seq<Post> {
    if to in open then [Post(to, msg)] else []
  }

  function Control(id: uint32): Message {
    Message(id, EMPTY)
  }

  function AcceptMessage(post: PostMetadata): Message {
    Message(ACCEPT, EncodePost(post))
  }

  /** The size test subtracts unsigned 64-bit numbers, so a body shorter than a digest wraps. */
  predicate Oversized(m: Message) {
    (|m.body| - DIGEST_LENGTH) % TWO64 > MAX_CHUNK
  }

  predicate Decodable(m: Message) {
    && (m.id == SEND || m.id == REQUEST_RECEIVE ==> DecodePre(m.body).Popped?)
    && (m.id == RECEIVE ==> DecodePhrase(m.body).Popped?)
  }

  function RemoveAbruptly(st: Store, open: set<Conn>, c: Conn): Outcome {
    Outcome(st.Drop(c), if c in st.sessions then Offer(open, st.sessions[c], Control(ABORT)) else [], [c])
  }

  function OnSessioned(st: Store, open: set<Conn>, c: Conn, m: Message): Outcome
    requires c in st.sessions
  {
    var sink := st.sessions[c];
    if m.id == FINAL_CHUNK then Outcome(st, Offer(open, sink, m), [])
    else if m.id == CHUNK && !Oversized(m) && sink in open then Outcome(st, [Post(sink, m)], [])
    else RemoveAbruptly(st, open, c)
  }

  function OnSend(st: Store, open: set<Conn>, c: Conn, m: Message): Outcome
    requires DecodePre(m.body).Popped?
  {
    var pre := DecodePre(m.body).value;
    var cleared := st.RemovePendingSender(c);
    if c in st.sessions then
      Outcome(cleared.RemoveSession(c).RemovePendingSender(c).AddPendingSender(c, pre),
              Offer(open, c, Control(REJECT)), [c])
    else
      Outcome(cleared.AddPendingSender(c, pre), [], [])
  }

  function OnRequestReceive(st: Store, open: set<Conn>, c: Conn, m: Message): Outcome
    requires DecodePre(m.body).Popped?
  {
    var code := DecodePre(m.body).value.phrase.code;
    if code in st.phrases.right && st.phrases.right[code] in st.contexts then
      Outcome(st, Offer(open, c, AcceptMessage(st.contexts[st.phrases.right[code]].post)), [])
    else
      Outcome(st, Offer(open, c, Control(REJECT)), [])
  }

  function OnReceive(st: Store, open: set<Conn>, c: Conn, m: Message): Outcome
    requires DecodePhrase(m.body).Popped?
  {
    var code := DecodePhrase(m.body).value.code;
    if code !in st.phrases.right then
      Outcome(st, Offer(open, c, Control(ABORT)), [])
    else
      var sender := st.phrases.right[code];
      if sender !in st.contexts then RemoveAbruptly(st, open, sender)
      else Outcome(st.AddSession(sender, c), Offer(open, sender, AcceptMessage(st.contexts[sender].post)), [])
  }

  function OnFinish(st: Store, open: set<Conn>, c: Conn): Outcome {
    if c in st.pairs.right then
      var sender := st.pairs.right[c];
      Outcome(st.Drop(sender), Offer(open, sender, Control(SUCCESS)), [sender])
    else
      Outcome(st, [], [])
  }

  function OnFailed(st: Store, open: set<Conn>, c: Conn): Outcome {
    if c in st.pairs.right then RemoveAbruptly(st, open, st.pairs.right[c]) else Outcome(st, [], [])
  }

  function Handle(st: Store, open: set<Conn>, c: Conn, m: Message): Outcome
    requires Decodable(m)
  {
    if c in st.sessions then OnSessioned(st, open, c, m)
    else if m.id == SEND then OnSend(st, open, c, m)
    else if m.id == REQUEST_RECEIVE then OnRequestReceive(st, open, c, m)
    else if m.id == RECEIVE then OnReceive(st, open, c, m)
    else if m.id == FINISH_RECEIVE then OnFinish(st, open, c)
    else if m.id == FAILED_RECEIVE then OnFailed(st, open, c)
    else Outcome(st, [], [])
  }

  // ---------- the chain of the four maps ----------

  ghost predicate Domains(st: Store) {
    && st.pairs.left.Keys <= st.sessions.Keys
    && st.sessions.Keys <= st.phrases.left.Keys
    && st.phrases.left.Keys <= st.contexts.Keys
  }

  ghost predicate Codes(phrases: map<Conn, seq<byte>>, contexts: map<Conn, Context>) {
    forall s :: s in phrases && s in contexts ==> phrases[s] == contexts[s].pre.phrase.code
  }

  /** What a Send makes of its metadata. */
  predicate WellFormed(context: Context) {
    && context.pre.Sized()
    && context.post == PostMetadata(context.pre.payload, MAX_CHUNK, context.pre.phrase, context.pre.file)
  }

  ghost predicate Chained(st: Store) {
    && Domains(st)
    && st.phrases.Valid()
    && st.pairs.Valid()
    && Codes(st.phrases.left, st.contexts)
    && (forall s :: s in st.contexts ==> WellFormed(st.contexts[s]))
  }

  lemma InsertValid<A, B>(b: Bimap<A, B>, x: A, y: B)
    requires b.Valid()
    ensures b.Insert(x, y).Valid()
  {
  }

  lemma EraseValid<A, B>(b: Bimap<A, B>, x: A)
    requires b.Valid()
    ensures b.EraseLeft(x).Valid()
    ensures b.EraseLeft(x).left == b.left - {x}
    ensures forall y :: y in b.EraseLeft(x).right <==> y in b.right && b.right[y] != x
    ensures forall y :: y in b.EraseLeft(x).right ==> b.EraseLeft(x).right[y] == b.right[y]
  {
  }

  lemma DropChained(st: Store, c: Conn)
    requires Chained(st)
    ensures Chained(st.Drop(c))
    ensures c !in st.Drop(c).contexts && c !in st.Drop(c).phrases.left
    ensures c !in st.Drop(c).sessions && c !in st.Drop(c).pairs.left
  {
    EraseValid(st.phrases, c);
    EraseValid(st.pairs, c);
  }

  lemma SendChained(st: Store, c: Conn, pre: PreMetadata)
    requires Chained(st) && c !in st.sessions && pre.Sized()
    ensures Chained(st.RemovePendingSender(c).AddPendingSender(c, pre))
  {
    EraseValid(st.phrases, c);
    InsertValid(st.phrases.EraseLeft(c), c, pre.phrase.code);
  }

  lemma SessionChained(st: Store, sender: Conn, receiver: Conn)
    requires Chained(st) && sender in st.phrases.left
    ensures Chained(st.AddSession(sender, receiver))
  {
    InsertValid(st.pairs, sender, receiver);
  }

  /** Every message from every client keeps the chain: paired senders have sessions, senders with
      sessions have phrases, senders with phrases have contexts, and each phrase is the code of
      its context. */
  lemma HandleChained(st: Store, open: set<Conn>, c: Conn, m: Message)
    requires Chained(st) && Decodable(m)
    ensures Chained(Handle(st, open, c, m).store)
  {
    if c in st.sessions {
      DropChained(st, c);
    } else if m.id == SEND {
      DecodedIsSized(m.body, MAX_CHUNK);
      SendChained(st, c, DecodePre(m.body).value);
    } else if m.id == RECEIVE {
      var code := DecodePhrase(m.body).value.code;
      if code in st.phrases.right {
        SessionChained(st, st.phrases.right[code], c);
      }
    } else if c in st.pairs.right {
      DropChained(st, st.pairs.right[c]);
    }
  }

  /** In a chained storage every phrase leads to a context with the same code, so the branches
      for a missing context are never taken: a request is rejected exactly when its code is
      unknown, and a claim is aborted exactly when its code is unknown. Otherwise the one who asked,
      or for a claim the sender who holds the code, is sent what that sender registered, and this at
      every claim, whether or not there is a session already. Neither closes a connection, and a Send
      is never refused. */
  lemma MissingBranchesUnreachable(st: Store, open: set<Conn>, c: Conn, m: Message)
    requires Chained(st) && Decodable(m) && c !in st.sessions && c in open
    ensures m.id == SEND ==> Handle(st, open, c, m).posts == [] && Handle(st, open, c, m).closing == []
    ensures m.id == REQUEST_RECEIVE ==>
              var code := DecodePre(m.body).value.phrase.code;
              Handle(st, open, c, m).posts ==
              [Post(c, if code in st.phrases.right
                       then AcceptMessage(st.contexts[st.phrases.right[code]].post) else Control(REJECT))]
    ensures m.id == RECEIVE ==>
              var code := DecodePhrase(m.body).value.code;
              && Handle(st, open, c, m).closing == []
              && Handle(st, open, c, m).posts ==
                 if code !in st.phrases.right then [Post(c, Control(ABORT))]
                 else var holder := st.phrases.right[code];
                      Offer(open, holder, AcceptMessage(st.contexts[holder].post))
  {
  }

  /** The Reject of a Send is dead code: a client with a session never reaches that handler, so no
      Send is ever answered with a Reject, in any state. */
  lemma SendNeverRejected(st: Store, open: set<Conn>, c: Conn, m: Message, p: Post)
    requires Decodable(m) && m.id == SEND && p in Handle(st, open, c, m).posts
    ensures c in st.sessions && p.msg == Control(ABORT)
  {
  }

  /** What the handlers would do with a code whose holder has no context: reject a request, and for a claim
      end all that is known of the holder, with an Abort to the sink of its session if there is one. */
  lemma HolderWithoutContext(st: Store, open: set<Conn>, c: Conn, m: Message, s: Conn)
    requires Decodable(m) && c !in st.sessions && s !in st.contexts
    ensures m.id == REQUEST_RECEIVE && DecodePre(m.body).value.phrase.code in st.phrases.right
            && st.phrases.right[DecodePre(m.body).value.phrase.code] == s ==>
              Handle(st, open, c, m) == Outcome(st, Offer(open, c, Control(REJECT)), [])
    ensures m.id == RECEIVE && DecodePhrase(m.body).value.code in st.phrases.right
            && st.phrases.right[DecodePhrase(m.body).value.code] == s ==>
              var o := Handle(st, open, c, m);
              && o.store == st.Drop(s) && o.closing == [s]
              && o.posts == if s in st.sessions then Offer(open, st.sessions[s], Control(ABORT)) else []
  {
  }

  // ---------- runs ----------

  /** A message is handled, or a disconnected client is removed. */
  datatype Event = Handled(from: Conn, msg: Message, open: set<Conn>) | Gone(client: Conn)

  predicate LegalEvent(e: Event) {
    e.Handled? ==> Decodable(e.msg)
  }

  function React(st: Store, e: Event): Outcome
    requires LegalEvent(e)
  {
    match e
    case Handled(c, m, open) => Handle(st, open, c, m)
    case Gone(c) => Outcome(st.RemoveSession(c).RemovePendingSender(c), [], [c])
  }

  predicate Legal(events: seq<Event>) {
    forall e :: e in events ==> LegalEvent(e)
  }

  function StoreAfter(st: Store, events: seq<Event>): Store
    requires Legal(events)
    decreases |events|
  {
    if events == [] then st else StoreAfter(React(st, events[0]).store, events[1..])
  }

  function PostsOf(st: Store, events: seq<Event>): seq<Post>
    requires Legal(events)
    decreases |events|
  {
    if events == [] then []
    else React(st, events[0]).posts + PostsOf(React(st, events[0]).store, events[1..])
  }

  /** Everything the run does to connections, in order. */
  function EffectsOf(st: Store, events: seq<Event>): seq<Effect>
    requires Legal(events)
    decreases |events|
  {
    if events == [] then []
    else React(st, events[0]).Effects() + EffectsOf(React(st, events[0]).store, events[1..])
  }

  function PostsIn(effects: seq<Effect>): seq<Post> {
    if effects == [] then []
    else (if effects[0].Posted? then [Post(effects[0].to, effects[0].msg)] else []) + PostsIn(effects[1..])
  }

  lemma {:induction false} PostsInAppend(a: seq<Effect>, b: seq<Effect>)
    ensures PostsIn(a + b) == PostsIn(a) + PostsIn(b)
  {
    if a == [] {
      assert a + b == b;
    } else {
      PostsInAppend(a[1..], b);
      assert (a + b)[1..] == a[1..] + b;
      Assoc(if a[0].Posted? then [Post(a[0].to, a[0].msg)] else [], PostsIn(a[1..]), PostsIn(b));
    }
  }

  lemma PostsOfEffects(o: Outcome)
    ensures PostsIn(o.Effects()) == o.posts
  {
    PostsInAppend(PostedAll(o.posts), CloseAll(o.closing));
    AllPosted(o.posts);
    NonePosted(o.closing);
  }

  lemma {:induction false} AllPosted(posts: seq<Post>)
    ensures PostsIn(PostedAll(posts)) == posts
  {
    if posts != [] {
      AllPosted(posts[1..]);
      assert PostedAll(posts)[1..] == PostedAll(posts[1..]);
    }
  }

  lemma {:induction false} NonePosted(closing: seq<Conn>)
    ensures PostsIn(CloseAll(closing)) == []
  {
    if closing != [] {
      NonePosted(closing[1..]);
      assert CloseAll(closing)[1..] == CloseAll(closing[1..]);
    }
  }

  /** The messages among the effects of a run are its posts. */
  lemma {:induction false} EffectsHoldPosts(st: Store, events: seq<Event>)
    requires Legal(events)
    ensures PostsIn(EffectsOf(st, events)) == PostsOf(st, events)
    decreases |events|
  {
    if events != [] {
      var o := React(st, events[0]);
      EffectsHoldPosts(o.store, events[1..]);
      PostsInAppend(o.Effects(), EffectsOf(o.store, events[1..]));
      PostsOfEffects(o);
    }
  }

  lemma ReactChained(st: Store, e: Event)
    requires Chained(st) && LegalEvent(e)
    ensures Chained(React(st, e).store)
  {
    match e
    case Handled(c, m, open) => HandleChained(st, open, c, m);
    case Gone(c) => DropChained(st, c);
  }

  lemma {:induction false} ChainFrom(st: Store, events: seq<Event>)
    requires Chained(st) && Legal(events)
    ensures Chained(StoreAfter(st, events))
    decreases |events|
  {
    if events != [] {
      ReactChained(st, events[0]);
      ChainFrom(React(st, events[0]).store, events[1..]);
    }
  }

  /** The chain holds after every run of the server. */
  lemma StorageChain(events: seq<Event>)
    requires Legal(events)
    ensures Chained(StoreAfter(EMPTY_STORE, events))
  {
    ChainFrom(EMPTY_STORE, events);
  }

  lemma FirstEvent(st: Store, e: Event, rest: seq<Event>)
    requires LegalEvent(e) && Legal(rest)
    ensures StoreAfter(st, [e] + rest) == StoreAfter(React(st, e).store, rest)
    ensures PostsOf(st, [e] + rest) == React(st, e).posts + PostsOf(React(st, e).store, rest)
    ensures EffectsOf(st, [e] + rest) == React(st, e).Effects() + EffectsOf(React(st, e).store, rest)
  {
    assert ([e] + rest)[1..] == rest;
  }

  lemma Uncons(a: seq<Event>, b: seq<Event>)
    requires a != [] && Legal(a) && Legal(b)
    ensures Legal(a + b) && Legal(a[1..]) && Legal(a[1..] + b)
    ensures [a[0]] + a[1..] == a && [a[0]] + (a[1..] + b) == a + b
  {
  }

  lemma {:induction false} SplitStore(st: Store, a: seq<Event>, b: seq<Event>)
    requires Legal(a) && Legal(b)
    ensures StoreAfter(st, a + b) == StoreAfter(StoreAfter(st, a), b)
    decreases |a|
  {
    if a == [] {
      assert a + b == b;
    } else {
      var e, rest := a[0], a[1..];
      Uncons(a, b);
      SplitStore(React(st, e).store, rest, b);
      FirstEvent(st, e, rest);
      FirstEvent(st, e, rest + b);
    }
  }

  lemma {:induction false} SplitPosts(st: Store, a: seq<Event>, b: seq<Event>)
    requires Legal(a) && Legal(b)
    ensures PostsOf(st, a + b) == PostsOf(st, a) + PostsOf(StoreAfter(st, a), b)
    decreases |a|
  {
    if a == [] {
      assert a + b == b;
    } else {
      Uncons(a, b);
      var e, rest := a[0], a[1..];
      var next := React(st, e);
      SplitPosts(next.store, rest, b);
      FirstEvent(st, e, rest);
      FirstEvent(st, e, rest + b);
      Assoc(next.posts, PostsOf(next.store, rest), PostsOf(StoreAfter(next.store, rest), b));
    }
  }

  lemma {:induction false} SplitEffects(st: Store, a: seq<Event>, b: seq<Event>)
    requires Legal(a) && Legal(b)
    ensures EffectsOf(st, a + b) == EffectsOf(st, a) + EffectsOf(StoreAfter(st, a), b)
    decreases |a|
  {
    if a == [] {
      assert a + b == b;
    } else {
      Uncons(a, b);
      var e, rest := a[0], a[1..];
      var next := React(st, e);
      SplitEffects(next.store, rest, b);
      FirstEvent(st, e, rest);
      FirstEvent(st, e, rest + b);
      Assoc(next.Effects(), EffectsOf(next.store, rest), EffectsOf(StoreAfter(next.store, rest), b));
    }
  }
}
