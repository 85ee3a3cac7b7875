/** What the server promises over its runs: stable codes, agreeing pairings, isolated streams,
    conserved confirmations, and chunks that the receiver can always take apart. */
module ServerProofs {
  import opened Bytes
  import opened NetMessage
  import opened Codec
  import opened Server

  // ---------- codes ----------

  predicate Holds(st: Store, holder: Conn, code: seq<byte>) {
    code in st.phrases.right && st.phrases.right[code] == holder
  }

  /** What ends a holder's hold on a code: it disconnects; in a session it sends anything but a
      final chunk or a chunk that is relayed; without one it registers another code; or the receiver
      recorded for it reports that it finished or failed. */
  predicate Ends(st: Store, e: Event, holder: Conn, code: seq<byte>)
    requires LegalEvent(e)
  {
    match e
    case Gone(c) => c == holder
    case Handled(c, m, open) =>
      if c in st.sessions then
        c == holder && m.id != FINAL_CHUNK && !(m.id == CHUNK && !Oversized(m) && st.sessions[c] in open)
      else if m.id == SEND then c == holder && DecodePre(m.body).value.phrase.code != code
      else (m.id == FINISH_RECEIVE || m.id == FAILED_RECEIVE) && c in st.pairs.right && st.pairs.right[c] == holder
  }

  /** Erasing a sender from the phrases takes exactly its own code away. */
  lemma EraseHolds(b: Bimap<Conn, seq<byte>>, c: Conn, holder: Conn, code: seq<byte>)
    requires b.Valid() && code in b.right && b.right[code] == holder
    ensures code in b.EraseLeft(c).right <==> c != holder
    ensures c != holder ==> b.EraseLeft(c).right[code] == holder
  {
  }

  /** Among everything that can happen, exactly these events take a code from its holder. */
  lemma CodeStays(st: Store, e: Event, holder: Conn, code: seq<byte>)
    requires Chained(st) && LegalEvent(e) && Holds(st, holder, code)
    ensures Holds(React(st, e).store, holder, code) <==> !Ends(st, e, holder, code)
  {
    match e
    case Gone(c) => EraseHolds(st.phrases, c, holder, code);
    case Handled(c, m, open) =>
      if c in st.sessions {
        EraseHolds(st.phrases, c, holder, code);
      } else if m.id == SEND {
        SendHolds(st, c, m, holder, code);
      } else if (m.id == FINISH_RECEIVE || m.id == FAILED_RECEIVE) && c in st.pairs.right {
        EraseHolds(st.phrases, st.pairs.right[c], holder, code);
      }
  }

  lemma SendHolds(st: Store, c: Conn, m: Message, holder: Conn, code: seq<byte>)
    requires Chained(st) && DecodePre(m.body).Popped? && c !in st.sessions && Holds(st, holder, code)
    ensures Holds(OnSend(st, {}, c, m).store, holder, code) <==>
            !(c == holder && DecodePre(m.body).value.phrase.code != code)
  {
    EraseHolds(st.phrases, c, holder, code);
    EraseValid(st.phrases, c);
  }

  lemma NextStore(st: Store, events: seq<Event>, i: nat)
    requires Chained(st) && Legal(events) && i < |events|
    ensures Legal(events[..i]) && Legal(events[..i + 1]) && LegalEvent(events[i])
    ensures Chained(StoreAfter(st, events[..i]))
    ensures StoreAfter(st, events[..i + 1]) == React(StoreAfter(st, events[..i]), events[i]).store
  {
    assert events[..i + 1] == events[..i] + [events[i]];
    assert events[i] in events;
    ChainFrom(st, events[..i]);
    SplitStore(st, events[..i], [events[i]]);
    FirstEvent(StoreAfter(st, events[..i]), events[i], []);
    assert [events[i]] + [] == [events[i]];
  }

  lemma {:induction false} HoldsUntil(st: Store, events: seq<Event>, holder: Conn, code: seq<byte>, n: nat)
    requires Chained(st) && Legal(events) && Holds(st, holder, code) && n <= |events|
    requires forall i :: 0 <= i < n ==> !Ends(StoreAfter(st, events[..i]), events[i], holder, code)
    ensures Holds(StoreAfter(st, events[..n]), holder, code)
  {
    if n > 0 {
      HoldsUntil(st, events, holder, code, n - 1);
      NextStore(st, events, n - 1);
      CodeStays(StoreAfter(st, events[..n - 1]), events[n - 1], holder, code);
    }
  }

  /** Over every run: a code resolves to its holder all along exactly when none of these events
      happens in it. */
  lemma CodeKept(st: Store, events: seq<Event>, holder: Conn, code: seq<byte>)
    requires Chained(st) && Legal(events) && Holds(st, holder, code)
    ensures (forall n :: 0 <= n <= |events| ==> Holds(StoreAfter(st, events[..n]), holder, code)) <==>
            (forall i :: 0 <= i < |events| ==> !Ends(StoreAfter(st, events[..i]), events[i], holder, code))
  {
    if forall i :: 0 <= i < |events| ==> !Ends(StoreAfter(st, events[..i]), events[i], holder, code) {
      forall n | 0 <= n <= |events|
        ensures Holds(StoreAfter(st, events[..n]), holder, code)
      {
        HoldsUntil(st, events, holder, code, n);
      }
    } else {
      var i :| 0 <= i < |events| && Ends(StoreAfter(st, events[..i]), events[i], holder, code);
      NextStore(st, events, i);
      if Holds(StoreAfter(st, events[..i]), holder, code) {
        CodeStays(StoreAfter(st, events[..i]), events[i], holder, code);
        assert !Holds(StoreAfter(st, events[..i + 1]), holder, code);
      }
    }
  }

  /** A Send replaces what was recorded of the sender; if another sender holds the code, it is recorded
      with a context but without a phrase. */
  lemma TakenCodeIsNotRecorded(st: Store, open: set<Conn>, c: Conn, m: Message)
    requires Chained(st) && m.id == SEND && Decodable(m) && c !in st.sessions
    ensures var code := DecodePre(m.body).value.phrase.code; var next := Handle(st, open, c, m).store;
            && c in next.contexts && next.contexts[c].pre == DecodePre(m.body).value
            && (c in next.phrases.left <==> code !in st.phrases.right || st.phrases.right[code] == c)
  {
    EraseValid(st.phrases, c);
  }

  // ---------- pairing ----------

  /** The sessions and the recorded pairs agree: same senders, and each sink is the receiver. */
  ghost predicate Paired(st: Store) {
    st.sessions == st.pairs.left
  }

  /** A Receive from a connection that is already recorded as a receiver, for a sender that has
      no session yet. */
  predicate DoubleClaim(st: Store, c: Conn, m: Message)
    requires Decodable(m)
  {
    && c !in st.sessions && m.id == RECEIVE && c in st.pairs.right
    && var code := DecodePhrase(m.body).value.code;
       code in st.phrases.right && st.phrases.right[code] !in st.sessions
  }

  lemma DropPaired(st: Store, c: Conn)
    requires Paired(st) && st.pairs.Valid()
    ensures Paired(st.Drop(c))
  {
    EraseValid(st.pairs, c);
  }

  lemma AddPaired(st: Store, s: Conn, r: Conn)
    requires Paired(st)
    ensures Paired(st.AddSession(s, r)) <==> s in st.sessions || r !in st.pairs.right
    ensures s in st.sessions ==> st.AddSession(s, r) == st
  {
    if s !in st.sessions && r in st.pairs.right {
      assert s in st.AddSession(s, r).sessions && s !in st.AddSession(s, r).pairs.left;
    }
  }

  /** Exactly the double claim breaks the agreement. */
  lemma PairingExact(st: Store, open: set<Conn>, c: Conn, m: Message)
    requires Chained(st) && Paired(st) && Decodable(m)
    ensures Paired(Handle(st, open, c, m).store) <==> !DoubleClaim(st, c, m)
  {
    if c in st.sessions {
      DropPaired(st, c);
    } else if m.id == RECEIVE {
      var code := DecodePhrase(m.body).value.code;
      if code in st.phrases.right {
        AddPaired(st, st.phrases.right[code], c);
      }
    } else if c in st.pairs.right {
      DropPaired(st, st.pairs.right[c]);
    }
  }

  /** A later claim of a code whose sender has a session changes nothing in the storage. */
  lemma LateClaimChangesNothing(st: Store, open: set<Conn>, c: Conn, m: Message)
    requires Chained(st) && Paired(st) && m.id == RECEIVE && Decodable(m) && c !in st.sessions
    requires var code := DecodePhrase(m.body).value.code;
             code in st.phrases.right && st.phrases.right[code] in st.sessions
    ensures Handle(st, open, c, m).store == st
  {
    AddPaired(st, st.phrases.right[DecodePhrase(m.body).value.code], c);
  }

  predicate OrderlyEvent(st: Store, e: Event)
    requires LegalEvent(e)
  {
    e.Handled? ==> !DoubleClaim(st, e.from, e.msg)
  }

  /** No connection claims a second sender while it is recorded as a receiver. */
  predicate Orderly(st: Store, events: seq<Event>)
    requires Legal(events)
    decreases |events|
  {
    events != [] ==>
      OrderlyEvent(st, events[0]) && Orderly(React(st, events[0]).store, events[1..])
  }

  lemma ReactPaired(st: Store, e: Event)
    requires Chained(st) && Paired(st) && LegalEvent(e) && OrderlyEvent(st, e)
    ensures Paired(React(st, e).store)
  {
    match e
    case Handled(c, m, open) => PairingExact(st, open, c, m);
    case Gone(c) => DropPaired(st, c);
  }

  lemma {:induction false} PairedFrom(st: Store, events: seq<Event>)
    requires Chained(st) && Paired(st) && Legal(events) && Orderly(st, events)
    ensures Paired(StoreAfter(st, events)) && Chained(StoreAfter(st, events))
    decreases |events|
  {
    if events != [] {
      ReactChained(st, events[0]);
      ReactPaired(st, events[0]);
      PairedFrom(React(st, events[0]).store, events[1..]);
    }
  }

  /** After every orderly run sessions and pairs agree, and no connection is the sink of two
      sessions. */
  lemma PairingAgreement(events: seq<Event>)
    requires Legal(events) && Orderly(EMPTY_STORE, events)
    ensures var st := StoreAfter(EMPTY_STORE, events);
            && st.sessions.Keys == st.pairs.left.Keys
            && (forall s :: s in st.sessions ==> st.sessions[s] == st.pairs.left[s])
            && (forall s, t :: s in st.sessions && t in st.sessions && st.sessions[s] == st.sessions[t] ==> s == t)
  {
    PairedFrom(EMPTY_STORE, events);
  }

  predicate IsSendOf(m: Message, code: seq<byte>) {
    m.id == SEND && Decodable(m) && DecodePre(m.body).value.phrase.code == code
  }

  predicate IsClaimOf(m: Message, code: seq<byte>) {
    m.id == RECEIVE && Decodable(m) && DecodePhrase(m.body).value.code == code
  }

  lemma TwoEvents(st: Store, a: Event, b: Event)
    requires LegalEvent(a) && LegalEvent(b)
    ensures Legal([a, b]) && StoreAfter(st, [a, b]) == React(React(st, a).store, b).store
  {
    assert [a, b][1..] == [b] && [b][1..] == [];
    assert StoreAfter(React(st, a).store, [b]) == StoreAfter(React(React(st, a).store, b).store, []);
  }

  lemma TwoSends(m: Message, n: Message, code: seq<byte>, code': seq<byte>)
    requires IsSendOf(m, code) && IsSendOf(n, code') && code != code'
    ensures var st := React(React(EMPTY_STORE, Handled(1, m, {})).store, Handled(2, n, {})).store;
            && st.phrases.right == map[code := 1, code' := 2]
            && st.contexts.Keys == {1, 2}
            && st.sessions == map[] && st.pairs == EMPTY_STORE.pairs
  {
    var one := React(EMPTY_STORE, Handled(1, m, {})).store;
    assert one.phrases.left == map[1 := code] && one.phrases.right == map[code := 1];
    assert one.contexts.Keys == {1} && one.sessions == map[];
    assert 2 !in one.phrases.left && code' !in one.phrases.right;
  }

  lemma FirstClaim(st: Store, m: Message, code: seq<byte>)
    requires IsClaimOf(m, code) && code in st.phrases.right && st.phrases.right[code] == 1 && 1 in st.contexts
    requires st.sessions == map[] && st.pairs == EMPTY_STORE.pairs
    ensures var next := React(st, Handled(3, m, {})).store;
            && next.sessions == map[1 := 3] && next.pairs == Bimap(map[1 := 3], map[3 := 1])
            && next.phrases == st.phrases && next.contexts == st.contexts
  {
    assert React(st, Handled(3, m, {})).store == st.AddSession(1, 3);
  }

  lemma SecondClaim(st: Store, n: Message, code': seq<byte>)
    requires IsClaimOf(n, code') && code' in st.phrases.right && st.phrases.right[code'] == 2 && 2 in st.contexts
    requires st.sessions == map[1 := 3] && st.pairs == Bimap(map[1 := 3], map[3 := 1])
    ensures var next := React(st, Handled(3, n, {})).store;
            next.sessions == map[1 := 3, 2 := 3] && next.pairs.left == map[1 := 3]
  {
    assert React(st, Handled(3, n, {})).store == st.AddSession(2, 3);
  }

  /** Without the premise the agreement fails: two senders, and a connection that claims both. */
  lemma DoubleClaimBreaksPairing(m: Message, n: Message, claim: Message, claim': Message,
                                 code: seq<byte>, code': seq<byte>)
    requires IsSendOf(m, code) && IsSendOf(n, code') && IsClaimOf(claim, code) && IsClaimOf(claim', code')
    requires code != code'
    ensures var run := [Handled(1, m, {}), Handled(2, n, {})] + [Handled(3, claim, {}), Handled(3, claim', {})];
            && Legal(run)
            && StoreAfter(EMPTY_STORE, run).sessions == map[1 := 3, 2 := 3]
            && StoreAfter(EMPTY_STORE, run).pairs.left == map[1 := 3]
  {
    TwoEvents(EMPTY_STORE, Handled(1, m, {}), Handled(2, n, {}));
    var st := StoreAfter(EMPTY_STORE, [Handled(1, m, {}), Handled(2, n, {})]);
    TwoSends(m, n, code, code');
    TwoEvents(st, Handled(3, claim, {}), Handled(3, claim', {}));
    FirstClaim(st, claim, code);
    SecondClaim(React(st, Handled(3, claim, {})).store, claim', code');
    SplitStore(EMPTY_STORE, [Handled(1, m, {}), Handled(2, n, {})], [Handled(3, claim, {}), Handled(3, claim', {})]);
  }

  /** Any two different codes are enough: the metadata and the claims that register and claim them. */
  lemma AnyTwoCodesBreakPairing(pre: PreMetadata, pre': PreMetadata)
    requires pre.phrase.Sized() && pre'.phrase.Sized() && pre.phrase.code != pre'.phrase.code
    ensures var run := [Handled(1, Message(SEND, EncodePre(pre)), {}), Handled(2, Message(SEND, EncodePre(pre')), {})]
                       + [Handled(3, Message(RECEIVE, EncodePhrase(pre.phrase)), {}),
                          Handled(3, Message(RECEIVE, EncodePhrase(pre'.phrase)), {})];
            Legal(run) && !Paired(StoreAfter(EMPTY_STORE, run))
  {
    MetadataIsSend(pre);
    MetadataIsSend(pre');
    PhraseIsClaim(pre.phrase);
    PhraseIsClaim(pre'.phrase);
    DoubleClaimBreaksPairing(Message(SEND, EncodePre(pre)), Message(SEND, EncodePre(pre')),
                             Message(RECEIVE, EncodePhrase(pre.phrase)), Message(RECEIVE, EncodePhrase(pre'.phrase)),
                             pre.phrase.code, pre'.phrase.code);
    var sessions: map<Conn, Conn>, pairs: map<Conn, Conn> := map[1 := 3, 2 := 3], map[1 := 3];
    assert 2 in sessions && 2 !in pairs;
  }

  lemma MetadataIsSend(pre: PreMetadata)
    requires pre.phrase.Sized()
    ensures IsSendOf(Message(SEND, EncodePre(pre)), pre.phrase.code)
  {
    PreRoundTrip([], pre);
    assert [] + EncodePre(pre) == EncodePre(pre);
  }

  lemma PhraseIsClaim(phrase: CodePhrase)
    requires phrase.Sized()
    ensures IsClaimOf(Message(RECEIVE, EncodePhrase(phrase)), phrase.code)
  {
    PhraseRoundTrip([], phrase);
    assert [] + EncodePhrase(phrase) == EncodePhrase(phrase);
  }

  /** The transfer messages. */
  predicate IsStream(m: Message) {
    m.id == CHUNK || m.id == FINAL_CHUNK || m.id == ABORT
  }

  // ---------- confirmations ----------

  function Successes(c: Conn, posts: seq<Post>): nat {
    if posts == [] then 0
    else (if posts[0].to == c && posts[0].msg.id == SUCCESS then 1 else 0) + Successes(c, posts[1..])
  }

  function SendsFrom(c: Conn, events: seq<Event>): nat {
    if events == [] then 0
    else (if IsSend(c, events[0]) then 1 else 0) + SendsFrom(c, events[1..])
  }

  predicate IsSend(c: Conn, e: Event) {
    e.Handled? && e.from == c && e.msg.id == SEND
  }

  function Pending(st: Store, c: Conn): nat {
    if c in st.contexts then 1 else 0
  }

  lemma {:induction false} SuccessesAppend(c: Conn, a: seq<Post>, b: seq<Post>)
    ensures Successes(c, a + b) == Successes(c, a) + Successes(c, b)
  {
    if a == [] {
      assert a + b == b;
    } else {
      SuccessesAppend(c, a[1..], b);
      assert (a + b)[1..] == a[1..] + b;
    }
  }

  ghost predicate SendsSuccess(posts: seq<Post>, s: Conn) {
    exists p :: p in posts && p.to == s && p.msg.id == SUCCESS
  }

  lemma NoSuccess(posts: seq<Post>, s: Conn)
    requires |posts| <= 1 && (posts != [] ==> posts[0].msg.id != SUCCESS)
    ensures !SendsSuccess(posts, s)
  {
  }

  lemma SessionedNoSuccess(st: Store, open: set<Conn>, c: Conn, m: Message, s: Conn)
    requires c in st.sessions
    ensures !SendsSuccess(OnSessioned(st, open, c, m).posts, s)
  {
    NoSuccess(OnSessioned(st, open, c, m).posts, s);
  }

  lemma ClaimNoSuccess(st: Store, open: set<Conn>, c: Conn, m: Message, s: Conn)
    requires DecodePhrase(m.body).Popped?
    ensures !SendsSuccess(OnReceive(st, open, c, m).posts, s)
  {
    NoSuccess(OnReceive(st, open, c, m).posts, s);
  }

  lemma OtherNoSuccess(st: Store, open: set<Conn>, c: Conn, m: Message, s: Conn)
    requires Decodable(m) && c !in st.sessions && m.id != RECEIVE && m.id != FINISH_RECEIVE
    ensures !SendsSuccess(Handle(st, open, c, m).posts, s)
  {
    NoSuccess(Handle(st, open, c, m).posts, s);
  }

  lemma FinishSuccess(st: Store, open: set<Conn>, c: Conn, s: Conn)
    ensures SendsSuccess(OnFinish(st, open, c).posts, s) <==> c in st.pairs.right && st.pairs.right[c] == s && s in open
    ensures c in st.pairs.right && st.pairs.right[c] == s ==> Forgotten(OnFinish(st, open, c).store, s)
  {
    if c in st.pairs.right && st.pairs.right[c] == s && s in open {
      assert Post(s, Control(SUCCESS)) in OnFinish(st, open, c).posts;
    }
  }

  /** In none of the four maps. */
  predicate Forgotten(st: Store, s: Conn) {
    s !in st.contexts && s !in st.phrases.left && s !in st.sessions && s !in st.pairs.left
  }

  /** A Success goes to a client exactly when the receiver recorded for it, not itself in a
      session, sends FinishReceive; after that the client is in none of the four maps. */
  lemma SuccessCause(st: Store, e: Event, s: Conn)
    requires LegalEvent(e)
    ensures SendsSuccess(React(st, e).posts, s) <==>
            && e.Handled? && e.from !in st.sessions && e.msg.id == FINISH_RECEIVE
            && e.from in st.pairs.right && st.pairs.right[e.from] == s && s in e.open
    ensures SendsSuccess(React(st, e).posts, s) ==> Forgotten(React(st, e).store, s)
  {
    if e.Gone? {
    } else if e.from in st.sessions {
      SessionedNoSuccess(st, e.open, e.from, e.msg, s);
    } else if e.msg.id == RECEIVE {
      ClaimNoSuccess(st, e.open, e.from, e.msg, s);
    } else if e.msg.id == FINISH_RECEIVE {
      FinishSuccess(st, e.open, e.from, s);
    } else {
      OtherNoSuccess(st, e.open, e.from, e.msg, s);
    }
  }

  lemma OneSuccess(posts: seq<Post>, c: Conn)
    requires |posts| <= 1
    ensures Successes(c, posts) == if posts != [] && posts[0].to == c && posts[0].msg.id == SUCCESS then 1 else 0
  {
    assert posts != [] ==> posts[1..] == [] && Successes(c, posts[1..]) == 0;
  }

  lemma ConservationStep(st: Store, e: Event, c: Conn)
    requires Chained(st) && LegalEvent(e)
    ensures Successes(c, React(st, e).posts) + Pending(React(st, e).store, c)
            <= Pending(st, c) + (if IsSend(c, e) then 1 else 0)
  {
    if e.Gone? {
    } else if e.from in st.sessions {
      SessionedConserves(st, e.open, e.from, e.msg, c);
    } else if e.msg.id == FINISH_RECEIVE {
      FinishConserves(st, e.open, e.from, c);
    } else {
      OthersConserve(st, e.open, e.from, e.msg, c);
    }
  }

  lemma SessionedConserves(st: Store, open: set<Conn>, s: Conn, m: Message, c: Conn)
    requires s in st.sessions
    ensures var o := OnSessioned(st, open, s, m);
            Successes(c, o.posts) == 0 && Pending(o.store, c) <= Pending(st, c)
  {
    OneSuccess(OnSessioned(st, open, s, m).posts, c);
  }

  lemma OthersConserve(st: Store, open: set<Conn>, from: Conn, m: Message, c: Conn)
    requires Decodable(m) && from !in st.sessions && m.id != FINISH_RECEIVE
    ensures var o := Handle(st, open, from, m);
            && Successes(c, o.posts) == 0
            && Pending(o.store, c) <= Pending(st, c) + (if from == c && m.id == SEND then 1 else 0)
  {
    if m.id == SEND {
    } else if m.id == RECEIVE {
      OneSuccess(OnReceive(st, open, from, m).posts, c);
    } else {
      RepliesConserve(st, open, from, m, c);
    }
  }

  lemma RepliesConserve(st: Store, open: set<Conn>, from: Conn, m: Message, c: Conn)
    requires Decodable(m) && from !in st.sessions && m.id != FINISH_RECEIVE && m.id != SEND && m.id != RECEIVE
    ensures var o := Handle(st, open, from, m);
            Successes(c, o.posts) == 0 && Pending(o.store, c) <= Pending(st, c)
  {
    OneSuccess(Handle(st, open, from, m).posts, c);
  }

  lemma FinishConserves(st: Store, open: set<Conn>, r: Conn, c: Conn)
    requires Chained(st)
    ensures Successes(c, OnFinish(st, open, r).posts) + Pending(OnFinish(st, open, r).store, c) <= Pending(st, c)
  {
    OneSuccess(OnFinish(st, open, r).posts, c);
    if r in st.pairs.right {
      assert st.pairs.right[r] in st.pairs.left;
    }
  }

  lemma {:induction false} ConservationFrom(st: Store, events: seq<Event>, c: Conn)
    requires Chained(st) && Legal(events)
    ensures Successes(c, PostsOf(st, events)) + Pending(StoreAfter(st, events), c)
            <= Pending(st, c) + SendsFrom(c, events)
    decreases |events|
  {
    if events != [] {
      var next := React(st, events[0]);
      ConservationStep(st, events[0], c);
      ReactChained(st, events[0]);
      ConservationFrom(next.store, events[1..], c);
      SuccessesAppend(c, next.posts, PostsOf(next.store, events[1..]));
    }
  }

  /** Confirmations are never made up: over every run, the Success messages sent to a client and
      its pending transmission together are at most the Send messages handled from it. */
  lemma Conservation(events: seq<Event>, c: Conn)
    requires Legal(events)
    ensures Successes(c, PostsOf(EMPTY_STORE, events)) + Pending(StoreAfter(EMPTY_STORE, events), c)
            <= SendsFrom(c, events)
  {
    ConservationFrom(EMPTY_STORE, events, c);
  }

  // ---------- the size filter ----------

  /** The wrapping subtraction makes the filter pass exactly the bodies that hold a digest and at
      most the chunk limit. */
  lemma FilterExact(m: Message)
    requires |m.body| < TWO32
    ensures !Oversized(m) <==> DIGEST_LENGTH <= |m.body| <= DIGEST_LENGTH + MAX_CHUNK
  {
    if |m.body| < DIGEST_LENGTH {
      assert (|m.body| - DIGEST_LENGTH) % TWO64 == |m.body| - DIGEST_LENGTH + TWO64;
    }
  }

  /** Every chunk the server sends to anyone can be taken apart by a receiver. */
  lemma RelayedChunksDecode(st: Store, e: Event, p: Post)
    requires LegalEvent(e) && (e.Handled? ==> |e.msg.body| < TWO32)
    requires p in React(st, e).posts && p.msg.id == CHUNK
    ensures DIGEST_LENGTH <= |p.msg.body| <= DIGEST_LENGTH + MAX_CHUNK
    ensures DecodeChunk(p.msg.body).Popped?
  {
    FilterExact(e.msg);
  }
}
