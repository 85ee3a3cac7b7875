/** How the server ends what it knows of a sender: whom it tells to close, and what it says first. */
module SessionEnds {
  import opened NetMessage
  import opened Codec
  import opened Server
  import opened CloseOrder
  import P = WritePump
  import F = Flushes
  import L = Closings

  // ---------- who is told to close ----------

  /** The senders that the handler forgets. */
  ghost predicate Forgets(st: Store, next: Store, s: Conn) {
    s in st.contexts && s !in next.contexts
  }

  lemma DropForgets(st: Store, c: Conn, s: Conn)
    requires Chained(st)
    ensures Forgets(st, st.Drop(c), s) <==> s == c && c in st.contexts
    ensures s in st.Drop(c).sessions <==> s in st.sessions && s != c
  {
  }

  lemma SessionedCloses(st: Store, open: set<Conn>, c: Conn, m: Message, s: Conn)
    requires Chained(st) && c in st.sessions
    ensures var o := OnSessioned(st, open, c, m);
            && (s in o.closing <==> Forgets(st, o.store, s)) && |o.closing| <= 1
            && (s in st.sessions && s !in o.store.sessions ==> s in o.closing)
  {
    DropForgets(st, c, s);
  }

  lemma SendCloses(st: Store, open: set<Conn>, c: Conn, m: Message, s: Conn)
    requires Chained(st) && c !in st.sessions && DecodePre(m.body).Popped?
    ensures var o := OnSend(st, open, c, m);
            o.closing == [] && !Forgets(st, o.store, s) && o.store.sessions == st.sessions
  {
  }

  lemma ClaimCloses(st: Store, open: set<Conn>, c: Conn, m: Message, s: Conn)
    requires Chained(st) && DecodePhrase(m.body).Popped?
    ensures var o := OnReceive(st, open, c, m); o.closing == [] && !Forgets(st, o.store, s)
    ensures s in st.sessions ==> s in OnReceive(st, open, c, m).store.sessions
  {
  }

  lemma OtherCloses(st: Store, open: set<Conn>, c: Conn, m: Message, s: Conn)
    requires Chained(st) && Decodable(m) && c !in st.sessions && m.id != SEND && m.id != RECEIVE
    ensures var o := Handle(st, open, c, m);
            && (s in o.closing <==> Forgets(st, o.store, s)) && |o.closing| <= 1
            && (s in st.sessions && s !in o.store.sessions ==> s in o.closing)
  {
    if c in st.pairs.right {
      assert st.pairs.right[c] in st.pairs.left;
      DropForgets(st, st.pairs.right[c], s);
    }
  }

  /** A handler tells exactly those senders to close that it forgets, and so every sender whose session
      it ends; never more than one. */
  lemma ClosesWhomItForgets(st: Store, open: set<Conn>, c: Conn, m: Message, s: Conn)
    requires Chained(st) && Decodable(m)
    ensures var o := Handle(st, open, c, m);
            && (s in o.closing <==> s in st.contexts && s !in o.store.contexts)
            && |o.closing| <= 1
            && (s in st.sessions && s !in o.store.sessions ==> s in o.closing)
  {
    if c in st.sessions {
      SessionedCloses(st, open, c, m, s);
    } else if m.id == SEND {
      SendCloses(st, open, c, m, s);
    } else if m.id == RECEIVE {
      ClaimCloses(st, open, c, m, s);
    } else {
      OtherCloses(st, open, c, m, s);
    }
  }

  // ---------- what is said first ----------

  lemma SessionedSays(st: Store, open: set<Conn>, c: Conn, m: Message, s: Conn)
    requires Chained(st) && c in st.sessions && s in st.sessions && s !in OnSessioned(st, open, c, m).store.sessions
    ensures c == s && OnSessioned(st, open, c, m).posts == Offer(open, st.sessions[s], Control(ABORT))
  {
    DropForgets(st, c, s);
  }

  lemma OtherSays(st: Store, open: set<Conn>, c: Conn, m: Message, s: Conn)
    requires Chained(st) && Decodable(m) && c !in st.sessions && m.id != SEND && m.id != RECEIVE
    requires s in st.sessions && s !in Handle(st, open, c, m).store.sessions
    ensures Handle(st, open, c, m).posts ==
            if m.id == FINISH_RECEIVE then Offer(open, s, Control(SUCCESS))
            else Offer(open, st.sessions[s], Control(ABORT))
  {
    assert c in st.pairs.right;
    DropForgets(st, st.pairs.right[c], s);
  }

  /** When a handler ends a session it sends one message if it can and no other: the Success to the
      sender, if the receiver recorded for it reports the end, and otherwise an Abort to the sink. */
  lemma EndIsTold(st: Store, open: set<Conn>, c: Conn, m: Message, s: Conn)
    requires Chained(st) && Decodable(m) && s in st.sessions && s !in Handle(st, open, c, m).store.sessions
    ensures Handle(st, open, c, m).posts ==
            if c != s && m.id == FINISH_RECEIVE then Offer(open, s, Control(SUCCESS))
            else Offer(open, st.sessions[s], Control(ABORT))
  {
    if c in st.sessions {
      SessionedSays(st, open, c, m, s);
    } else if m.id == SEND {
      SendCloses(st, open, c, m, s);
    } else if m.id == RECEIVE {
      ClaimCloses(st, open, c, m, s);
    } else {
      OtherSays(st, open, c, m, s);
    }
  }

  // ---------- runs ----------

  /** The same for any event; a client that has disconnected is told as well, known or not. */
  lemma EventCloses(st: Store, e: Event, s: Conn)
    requires Chained(st) && LegalEvent(e)
    ensures s in React(st, e).closing <==> Forgets(st, React(st, e).store, s) || e == Gone(s)
    ensures |React(st, e).closing| <= 1
    ensures s in st.sessions && s !in React(st, e).store.sessions ==> s in React(st, e).closing
  {
    match e
    case Handled(c, m, open) => ClosesWhomItForgets(st, open, c, m, s);
    case Gone(c) => DropForgets(st, c, s);
  }

  /** Over every run: a sender whose session is over has been told to close. */
  lemma {:induction false} EndedIsTold(st: Store, events: seq<Event>, s: Conn)
    requires Chained(st) && Legal(events) && s in st.sessions && s !in StoreAfter(st, events).sessions
    ensures HangUp in CommandsTo(s, EffectsOf(st, events))
    decreases |events|
  {
    var e, rest := events[0], events[1..];
    var o := React(st, e);
    CommandsAppend(s, o.Effects(), EffectsOf(o.store, rest));
    if s in o.store.sessions {
      ReactChained(st, e);
      EndedIsTold(o.store, rest, s);
    } else {
      EventCloses(st, e, s);
      HangUpIsClosing(o, s);
    }
  }

  lemma {:induction false} ToldToHangUp(actions: seq<P.Action>) returns (i: nat)
    requires HangUp in Told(actions)
    ensures i < |actions| && actions[i].PostFlushClose?
  {
    var n := |actions| - 1;
    if HangUp in ToldBy(actions[n]) {
      i := n;
    } else {
      i := ToldToHangUp(actions[..n]);
    }
  }

  /** And so its socket closes: once the threads of a connection that was told all of this have nothing
      left to do, it is closed, whatever it was told before. */
  lemma EndedIsClosed(st: Store, events: seq<Event>, s: Conn, earlier: seq<Command>,
                      run: seq<P.Pump>, actions: seq<P.Action>)
    requires Chained(st) && Legal(events) && s in st.sessions && s !in StoreAfter(st, events).sessions
    requires P.IsRun(run, actions) && Told(actions) == earlier + CommandsTo(s, EffectsOf(st, events))
    requires F.Drained(run[|actions|])
    ensures !run[|actions|].open
  {
    EndedIsTold(st, events, s);
    var i := ToldToHangUp(actions);
    L.AskedIsClosed(run, actions, i);
  }
}
