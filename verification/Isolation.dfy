/** What the server relays to one connection, whatever all the others do. */
module Isolations {
  import opened Bytes
  import opened NetMessage
  import opened Codec
  import opened Server
  import opened ServerProofs

  /** The transfer messages sent to a connection. */
  function StreamTo(r: Conn, posts: seq<Post>): seq<Message> {
    if posts == [] then []
    else (if posts[0].to == r && IsStream(posts[0].msg) then [posts[0].msg] else []) + StreamTo(r, posts[1..])
  }

  lemma {:induction false} StreamAppend(r: Conn, a: seq<Post>, b: seq<Post>)
    ensures StreamTo(r, a + b) == StreamTo(r, a) + StreamTo(r, b)
  {
    if a == [] {
      assert a + b == b;
    } else {
      StreamAppend(r, a[1..], b);
      assert (a + b)[1..] == a[1..] + b;
      var head := if a[0].to == r && IsStream(a[0].msg) then [a[0].msg] else [];
      Assoc(head, StreamTo(r, a[1..]), StreamTo(r, b));
    }
  }

  /** What a handler adds to that; it sends at most one message. */
  function Heard(r: Conn, posts: seq<Post>): seq<Message> {
    if posts != [] && posts[0].to == r && IsStream(posts[0].msg) then [posts[0].msg] else []
  }

  lemma OnePost(r: Conn, posts: seq<Post>)
    requires |posts| <= 1
    ensures StreamTo(r, posts) == Heard(r, posts)
  {
    assert posts != [] ==> posts[1..] == [] && StreamTo(r, posts[1..]) == [];
  }

  lemma ThenHears(r: Conn, posts: seq<Post>, rest: seq<Post>)
    requires |posts| <= 1
    ensures StreamTo(r, posts + rest) == Heard(r, posts) + StreamTo(r, rest)
  {
    OnePost(r, posts);
    StreamAppend(r, posts, rest);
  }

  /** The chunks and the final chunk that a sender sent while its sink could take them. */
  function Relayed(s: Conn, r: Conn, events: seq<Event>): seq<Message> {
    if events == [] then []
    else (if IsRelayed(s, r, events[0]) then [events[0].msg] else []) + Relayed(s, r, events[1..])
  }

  predicate IsRelayed(s: Conn, r: Conn, e: Event) {
    e.Handled? && e.from == s && (e.msg.id == CHUNK || e.msg.id == FINAL_CHUNK) && r in e.open
  }

  /** How many of the events leave the session of s standing, counted up to its end. */
  function Live(st: Store, events: seq<Event>, s: Conn): (n: nat)
    requires Legal(events)
    ensures n <= |events|
    decreases |events|
  {
    if events == [] || s !in React(st, events[0]).store.sessions then 0
    else 1 + Live(React(st, events[0]).store, events[1..], s)
  }

  predicate NoClaim(r: Conn, events: seq<Event>) {
    forall e :: e in events ==> e.Handled? && e.from == r ==> e.msg.id != RECEIVE
  }

  // ---------- one event ----------

  ghost predicate NoSink(st: Store, r: Conn) {
    forall t :: t in st.sessions ==> st.sessions[t] != r
  }

  ghost predicate SoleSink(st: Store, s: Conn, r: Conn) {
    s in st.sessions && st.sessions[s] == r && forall t :: t in st.sessions && st.sessions[t] == r ==> t == s
  }

  /** What a connection that is no sink sees of a handler. */
  ghost predicate QuietSees(o: Outcome, r: Conn) {
    NoSink(o.store, r) && |o.posts| <= 1 && Heard(r, o.posts) == []
  }

  /** If this event ends the session of s, whether its sink r hears an Abort: if it can, and unless s
      disconnected or another connection reported the end of the transfer. */
  predicate Aborting(e: Event, s: Conn, r: Conn) {
    e.Handled? && r in e.open && (e.from == s || e.msg.id != FINISH_RECEIVE)
  }

  function LastWord(aborting: bool): seq<Message> {
    if aborting then [Control(ABORT)] else []
  }

  /** What the only sink of s sees of a handler: what s relays while the session stands, and an Abort
      or nothing when it ends. */
  ghost predicate SinkSees(o: Outcome, relayed: seq<Message>, aborting: bool, s: Conn, r: Conn) {
    && |o.posts| <= 1
    && if s in o.store.sessions then SoleSink(o.store, s, r) && Heard(r, o.posts) == relayed
       else NoSink(o.store, r) && Heard(r, o.posts) == LastWord(aborting)
  }

  lemma QuietSessioned(st: Store, open: set<Conn>, c: Conn, m: Message, r: Conn)
    requires c in st.sessions && NoSink(st, r)
    ensures QuietSees(OnSessioned(st, open, c, m), r)
  {
  }

  lemma QuietSend(st: Store, open: set<Conn>, c: Conn, m: Message, r: Conn)
    requires DecodePre(m.body).Popped? && c !in st.sessions && NoSink(st, r)
    ensures QuietSees(OnSend(st, open, c, m), r)
  {
  }

  lemma QuietClaim(st: Store, open: set<Conn>, c: Conn, m: Message, r: Conn)
    requires DecodePhrase(m.body).Popped? && c != r && NoSink(st, r)
    ensures QuietSees(OnReceive(st, open, c, m), r)
  {
  }

  lemma QuietOther(st: Store, open: set<Conn>, c: Conn, m: Message, r: Conn)
    requires Decodable(m) && c !in st.sessions && m.id != SEND && m.id != RECEIVE && NoSink(st, r)
    ensures QuietSees(Handle(st, open, c, m), r)
  {
  }

  /** One event, seen from a connection that is no sink and does not claim. */
  lemma QuietStep(st: Store, e: Event, r: Conn)
    requires LegalEvent(e) && NoSink(st, r) && NoClaim(r, [e])
    ensures QuietSees(React(st, e), r)
  {
    assert e in [e];
    if e.Gone? {
    } else if e.from in st.sessions {
      QuietSessioned(st, e.open, e.from, e.msg, r);
    } else if e.msg.id == SEND {
      QuietSend(st, e.open, e.from, e.msg, r);
    } else if e.msg.id == RECEIVE {
      QuietClaim(st, e.open, e.from, e.msg, r);
    } else {
      QuietOther(st, e.open, e.from, e.msg, r);
    }
  }

  lemma SinkStepSessioned(st: Store, open: set<Conn>, c: Conn, m: Message, s: Conn, r: Conn)
    requires c in st.sessions && SoleSink(st, s, r)
    ensures var e := Handled(c, m, open);
            SinkSees(OnSessioned(st, open, c, m), if IsRelayed(s, r, e) then [m] else [], Aborting(e, s, r), s, r)
  {
  }

  lemma SinkStepSend(st: Store, open: set<Conn>, c: Conn, m: Message, s: Conn, r: Conn)
    requires DecodePre(m.body).Popped? && c !in st.sessions && SoleSink(st, s, r)
    ensures SinkSees(OnSend(st, open, c, m), [], false, s, r)
  {
  }

  lemma SinkStepClaim(st: Store, open: set<Conn>, c: Conn, m: Message, s: Conn, r: Conn)
    requires DecodePhrase(m.body).Popped? && c != r && SoleSink(st, s, r)
    ensures SinkSees(OnReceive(st, open, c, m), [], r in open, s, r)
  {
    var code := DecodePhrase(m.body).value.code;
    if code in st.phrases.right {
      var x := st.phrases.right[code];
      if x in st.contexts {
        SinkStepSession(st, open, x, c, s, r);
      } else {
        SinkStepAbrupt(st, open, x, s, r);
      }
    }
  }

  lemma SinkStepSession(st: Store, open: set<Conn>, x: Conn, c: Conn, s: Conn, r: Conn)
    requires c != r && x in st.contexts && SoleSink(st, s, r)
    ensures SinkSees(Outcome(st.AddSession(x, c), Offer(open, x, AcceptMessage(st.contexts[x].post)), []),
                     [], r in open, s, r)
  {
  }

  /** The session of x ends. */
  lemma SinkStepAbrupt(st: Store, open: set<Conn>, x: Conn, s: Conn, r: Conn)
    requires SoleSink(st, s, r)
    ensures SinkSees(RemoveAbruptly(st, open, x), [], r in open, s, r)
  {
  }

  lemma SinkStepOther(st: Store, open: set<Conn>, c: Conn, m: Message, s: Conn, r: Conn)
    requires Decodable(m) && c !in st.sessions && m.id != SEND && m.id != RECEIVE && SoleSink(st, s, r)
    ensures SinkSees(Handle(st, open, c, m), [], r in open && m.id != FINISH_RECEIVE, s, r)
  {
  }

  /** One event, seen from the only sink of s, which does not claim. */
  lemma SinkStep(st: Store, e: Event, s: Conn, r: Conn)
    requires LegalEvent(e) && SoleSink(st, s, r) && NoClaim(r, [e])
    ensures SinkSees(React(st, e), if IsRelayed(s, r, e) then [e.msg] else [], Aborting(e, s, r), s, r)
  {
    assert e in [e];
    if e.Gone? {
    } else if e.from in st.sessions {
      SinkStepSessioned(st, e.open, e.from, e.msg, s, r);
    } else if e.msg.id == SEND {
      SinkStepSend(st, e.open, e.from, e.msg, s, r);
    } else if e.msg.id == RECEIVE {
      SinkStepClaim(st, e.open, e.from, e.msg, s, r);
    } else {
      SinkStepOther(st, e.open, e.from, e.msg, s, r);
    }
  }

  // ---------- runs ----------

  lemma {:induction false} Quiet(st: Store, events: seq<Event>, r: Conn)
    requires Legal(events) && NoSink(st, r) && NoClaim(r, events)
    ensures StreamTo(r, PostsOf(st, events)) == [] && NoSink(StoreAfter(st, events), r)
    decreases |events|
  {
    if events != [] {
      var next := React(st, events[0]);
      QuietStep(st, events[0], r);
      Quiet(next.store, events[1..], r);
      ThenHears(r, next.posts, PostsOf(next.store, events[1..]));
    }
  }

  /** What s relays in the first n events, and the Abort that the next may bring. */
  function RelayUpTo(events: seq<Event>, n: nat, s: Conn, r: Conn): seq<Message>
    requires n <= |events|
  {
    Relayed(s, r, events[..n]) + LastWord(n < |events| && Aborting(events[n], s, r))
  }

  /** What s relays while its session stands, and the Abort that its end may bring. */
  function RelayAndEnd(st: Store, events: seq<Event>, s: Conn, r: Conn): seq<Message>
    requires Legal(events)
  {
    RelayUpTo(events, Live(st, events, s), s, r)
  }

  lemma RelayedFirst(events: seq<Event>, n: nat, s: Conn, r: Conn)
    requires n < |events|
    ensures Relayed(s, r, events[..1 + n]) ==
            (if IsRelayed(s, r, events[0]) then [events[0].msg] else []) + Relayed(s, r, events[1..][..n])
  {
    assert events[..1 + n][1..] == events[1..][..n];
  }

  lemma RelayMore(events: seq<Event>, n: nat, s: Conn, r: Conn)
    requires n < |events|
    ensures RelayUpTo(events, 1 + n, s, r) ==
            (if IsRelayed(s, r, events[0]) then [events[0].msg] else []) + RelayUpTo(events[1..], n, s, r)
  {
    var rest := events[1..];
    RelayedFirst(events, n, s, r);
    assert n < |rest| ==> rest[n] == events[1 + n];
    Assoc(if IsRelayed(s, r, events[0]) then [events[0].msg] else [], Relayed(s, r, rest[..n]),
          LastWord(n < |rest| && Aborting(rest[n], s, r)));
  }

  lemma RelayOver(events: seq<Event>, s: Conn, r: Conn)
    requires events != []
    ensures RelayUpTo(events, 0, s, r) == LastWord(Aborting(events[0], s, r))
  {
    assert Relayed(s, r, events[..0]) == [];
    assert [] + LastWord(Aborting(events[0], s, r)) == LastWord(Aborting(events[0], s, r));
  }

  /** A sink that claims no further sender is sent exactly what its sender relayed while the session
      stood, in order, and then an Abort exactly if it could hear one and the session was not ended by
      the sender's disconnection or by the report of a receiver, whatever any other connection sends. */
  lemma {:induction false} Isolation(st: Store, events: seq<Event>, s: Conn, r: Conn)
    requires Legal(events) && SoleSink(st, s, r) && NoClaim(r, events)
    ensures StreamTo(r, PostsOf(st, events)) == RelayAndEnd(st, events, s, r)
    decreases |events|
  {
    if events != [] {
      var e, rest := events[0], events[1..];
      var next := React(st, e);
      SinkStep(st, e, s, r);
      ThenHears(r, next.posts, PostsOf(next.store, rest));
      if s in next.store.sessions {
        Isolation(next.store, rest, s, r);
        RelayMore(events, Live(next.store, rest, s), s, r);
      } else {
        Quiet(next.store, rest, r);
        RelayOver(events, s, r);
        assert LastWord(Aborting(e, s, r)) + [] == LastWord(Aborting(e, s, r));
      }
    }
  }

  // ---------- a run with one claim ----------

  predicate IsClaim(e: Event, r: Conn) {
    e.Handled? && e.from == r && e.msg.id == RECEIVE && Decodable(e.msg)
  }

  /** A claim reaches the holder of its code if that has no session yet. */
  predicate Reaches(st: Store, claim: Event, r: Conn)
    requires IsClaim(claim, r)
  {
    var code := DecodePhrase(claim.msg.body).value.code;
    && r !in st.sessions && code in st.phrases.right
    && st.phrases.right[code] in st.contexts && st.phrases.right[code] !in st.sessions
  }

  function Reached(st: Store, claim: Event, r: Conn): Conn
    requires IsClaim(claim, r) && Reaches(st, claim, r)
  {
    st.phrases.right[DecodePhrase(claim.msg.body).value.code]
  }

  /** A claim of an unknown code is answered with an Abort. */
  predicate Refused(st: Store, claim: Event, r: Conn)
    requires IsClaim(claim, r)
  {
    r !in st.sessions && r in claim.open && DecodePhrase(claim.msg.body).value.code !in st.phrases.right
  }

  lemma UnknownClaim(st: Store, open: set<Conn>, r: Conn, m: Message)
    requires DecodePhrase(m.body).Popped? && DecodePhrase(m.body).value.code !in st.phrases.right && NoSink(st, r)
    ensures var o := OnReceive(st, open, r, m);
            |o.posts| <= 1 && Heard(r, o.posts) == (if r in open then [Control(ABORT)] else []) && o.store == st
  {
  }

  /** A claim of a known code that begins no session: its holder has one, or is forgotten. */
  lemma LateClaim(st: Store, open: set<Conn>, r: Conn, m: Message)
    requires DecodePhrase(m.body).Popped? && DecodePhrase(m.body).value.code in st.phrases.right && NoSink(st, r)
    requires var s := st.phrases.right[DecodePhrase(m.body).value.code]; s !in st.contexts || s in st.sessions
    ensures QuietSees(OnReceive(st, open, r, m), r)
  {
  }

  lemma NewSession(st: Store, open: set<Conn>, r: Conn, m: Message)
    requires DecodePhrase(m.body).Popped? && DecodePhrase(m.body).value.code in st.phrases.right && NoSink(st, r)
    requires var s := st.phrases.right[DecodePhrase(m.body).value.code]; s in st.contexts && s !in st.sessions
    ensures var o, s := OnReceive(st, open, r, m), st.phrases.right[DecodePhrase(m.body).value.code];
            |o.posts| <= 1 && Heard(r, o.posts) == [] && SoleSink(o.store, s, r)
  {
  }

  /** A claim by a connection that is no sink. */
  lemma ClaimStep(st: Store, claim: Event, r: Conn)
    requires IsClaim(claim, r) && NoSink(st, r)
    ensures var o := React(st, claim);
            && |o.posts| <= 1 && Heard(r, o.posts) == (if Refused(st, claim, r) then [Control(ABORT)] else [])
            && if Reaches(st, claim, r) then SoleSink(o.store, Reached(st, claim, r), r) else NoSink(o.store, r)
  {
    if r in st.sessions {
      QuietSessioned(st, claim.open, r, claim.msg, r);
    } else if DecodePhrase(claim.msg.body).value.code !in st.phrases.right {
      UnknownClaim(st, claim.open, r, claim.msg);
    } else if Reaches(st, claim, r) {
      NewSession(st, claim.open, r, claim.msg);
    } else {
      LateClaim(st, claim.open, r, claim.msg);
    }
  }

  ghost predicate StreamAfterClaim(stream: seq<Message>, st: Store, claim: Event, after: seq<Event>, r: Conn)
    requires IsClaim(claim, r) && Legal(after)
  {
    if Reaches(st, claim, r) then
      var next, s := React(st, claim).store, Reached(st, claim, r);
      stream == RelayAndEnd(next, after, s, r)
    else stream == (if Refused(st, claim, r) then [Control(ABORT)] else [])
  }

  lemma FromClaim(st: Store, claim: Event, after: seq<Event>, r: Conn)
    requires IsClaim(claim, r) && Legal(after) && NoSink(st, r) && NoClaim(r, after)
    ensures var o := React(st, claim);
            && |o.posts| <= 1
            && StreamAfterClaim(Heard(r, o.posts) + StreamTo(r, PostsOf(o.store, after)), st, claim, after, r)
  {
    var o := React(st, claim);
    ClaimStep(st, claim, r);
    if Reaches(st, claim, r) {
      Isolation(o.store, after, Reached(st, claim, r), r);
      assert [] + StreamTo(r, PostsOf(o.store, after)) == StreamTo(r, PostsOf(o.store, after));
    } else {
      Quiet(o.store, after, r);
    }
  }

  /** Over every whole run in which r claims once, whatever the other connections do: r is sent no
      transfer message before its claim, and then exactly what the sender it reached relays while the
      session stands, and an Abort at its end exactly as Isolation says; if it reached nobody, only the
      refusal. */
  lemma IsolatedRun(before: seq<Event>, claim: Event, after: seq<Event>, r: Conn)
    requires Legal(before) && IsClaim(claim, r) && Legal(after) && Legal(before + ([claim] + after))
    requires NoClaim(r, before) && NoClaim(r, after)
    ensures StreamAfterClaim(StreamTo(r, PostsOf(EMPTY_STORE, before + ([claim] + after))),
                             StoreAfter(EMPTY_STORE, before), claim, after, r)
  {
    var st := StoreAfter(EMPTY_STORE, before);
    Quiet(EMPTY_STORE, before, r);
    SplitPosts(EMPTY_STORE, before, [claim] + after);
    FirstEvent(st, claim, after);
    FromClaim(st, claim, after, r);
    var o := React(st, claim);
    ThenHears(r, o.posts, PostsOf(o.store, after));
    var rest := o.posts + PostsOf(o.store, after);
    StreamAppend(r, PostsOf(EMPTY_STORE, before), rest);
    assert [] + StreamTo(r, rest) == StreamTo(r, rest);
  }
}
