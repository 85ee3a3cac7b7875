/** Success goes out before the connection is closed: from the handler of server.cpp, through
    the order of its effects, to the bytes that net_connection.hpp has written when it closes. */
module CloseOrder {
  import opened Bytes
  import opened NetMessage
  import opened Codec
  import opened Framing
  import opened Server
  import opened ServerProofs
  import P = WritePump
  import C = Channel

  // ---------- what one connection is told ----------

  /** A call of send that succeeds, or of disconnectAfterFlush. */
  datatype Command = Say(msg: Message) | HangUp

  /** The effects on connection s. */
  function CommandsTo(s: Conn, effects: seq<Effect>): seq<Command> {
    if effects == [] then []
    else CommandOf(s, effects[0]) + CommandsTo(s, effects[1..])
  }

  function CommandOf(s: Conn, e: Effect): seq<Command> {
    match e
    case Posted(to, msg) => if to == s then [Say(msg)] else []
    case CloseAfterFlush(c) => if c == s then [HangUp] else []
  }

  function Said(commands: seq<Command>): seq<Message> {
    if commands == [] then []
    else (if commands[0].Say? then [commands[0].msg] else []) + Said(commands[1..])
  }

  lemma {:induction false} CommandsAppend(s: Conn, a: seq<Effect>, b: seq<Effect>)
    ensures CommandsTo(s, a + b) == CommandsTo(s, a) + CommandsTo(s, b)
  {
    if a == [] {
      assert a + b == b;
    } else {
      CommandsAppend(s, a[1..], b);
      assert (a + b)[1..] == a[1..] + b;
      Assoc(CommandOf(s, a[0]), CommandsTo(s, a[1..]), CommandsTo(s, b));
    }
  }

  lemma {:induction false} SaidAppend(a: seq<Command>, b: seq<Command>)
    ensures Said(a + b) == Said(a) + Said(b)
  {
    if a == [] {
      assert a + b == b;
    } else {
      SaidAppend(a[1..], b);
      assert (a + b)[1..] == a[1..] + b;
      Assoc(if a[0].Say? then [a[0].msg] else [], Said(a[1..]), Said(b));
    }
  }

  // ---------- the order within a handler ----------

  /** A Success is always followed at once by the call that closes its connection, and the handler
      does nothing else. */
  lemma SuccessThenClose(st: Store, e: Event, s: Conn, msg: Message)
    requires LegalEvent(e) && Post(s, msg) in React(st, e).posts && msg.id == SUCCESS
    ensures React(st, e).Effects() == [Posted(s, Control(SUCCESS)), CloseAfterFlush(s)]
  {
    SuccessCause(st, e, s);
    assert SendsSuccess(React(st, e).posts, s);
    FinishEffects(st, e.open, e.from);
  }

  lemma FinishEffects(st: Store, open: set<Conn>, r: Conn)
    requires r in st.pairs.right && st.pairs.right[r] in open
    ensures var s := st.pairs.right[r];
            OnFinish(st, open, r).Effects() == [Posted(s, Control(SUCCESS)), CloseAfterFlush(s)]
  {
    TwoEffects(Post(st.pairs.right[r], Control(SUCCESS)), st.pairs.right[r]);
  }

  /** The same for the Reject of a Send: it precedes the closing. */
  lemma RejectThenClose(st: Store, open: set<Conn>, c: Conn, m: Message)
    requires DecodePre(m.body).Popped? && c in st.sessions && c in open
    ensures OnSend(st, open, c, m).Effects() == [Posted(c, Control(REJECT)), CloseAfterFlush(c)]
  {
    TwoEffects(Post(c, Control(REJECT)), c);
  }

  lemma TwoEffects(p: Post, c: Conn)
    ensures PostedAll([p]) + CloseAll([c]) == [Posted(p.to, p.msg), CloseAfterFlush(c)]
  {
    assert [p][1..] == [] && [c][1..] == [];
    assert PostedAll([p]) == [Posted(p.to, p.msg)] + PostedAll([]);
    assert CloseAll([c]) == [CloseAfterFlush(c)] + CloseAll([]);
  }

  /** In a whole run: what s is told up to and including the handler that sends it a Success. */
  lemma CommandsThroughSuccess(st: Store, before: seq<Event>, e: Event, after: seq<Event>, s: Conn)
    requires Legal(before) && LegalEvent(e) && Legal(after) && Legal(before + ([e] + after))
    requires Post(s, Control(SUCCESS)) in React(StoreAfter(st, before), e).posts
    ensures CommandsTo(s, EffectsOf(st, before)) + [Say(Control(SUCCESS)), HangUp]
            <= CommandsTo(s, EffectsOf(st, before + ([e] + after)))
  {
    var now := StoreAfter(st, before);
    var pair := [Posted(s, Control(SUCCESS)), CloseAfterFlush(s)];
    var rest := EffectsOf(React(now, e).store, after);
    SplitEffects(st, before, [e] + after);
    FirstEvent(now, e, after);
    SuccessThenClose(now, e, s, Control(SUCCESS));
    CommandsAppend(s, EffectsOf(st, before), pair + rest);
    CommandsAppend(s, pair, rest);
    PairCommands(s);
    Assoc(CommandsTo(s, EffectsOf(st, before)), CommandsTo(s, pair), CommandsTo(s, rest));
  }

  lemma PairCommands(s: Conn)
    ensures CommandsTo(s, [Posted(s, Control(SUCCESS)), CloseAfterFlush(s)]) == [Say(Control(SUCCESS)), HangUp]
  {
    var close := [CloseAfterFlush(s)];
    assert [Posted(s, Control(SUCCESS)), CloseAfterFlush(s)][1..] == close && close[1..] == [];
    assert CommandsTo(s, close) == [HangUp] + CommandsTo(s, []);
  }

  // ---------- the connection that is told ----------

  /** The commands among the steps of a connection. */
  function Told(actions: seq<P.Action>): seq<Command> {
    if actions == [] then [] else Told(actions[..|actions| - 1]) + ToldBy(actions[|actions| - 1])
  }

  function ToldBy(a: P.Action): seq<Command> {
    match a
    case PostSend(m) => [Say(m)]
    case PostFlushClose => [HangUp]
    case _ => []
  }

  /** How many messages were said before the first hang-up. */
  function FirstHangUp(commands: seq<Command>): P.Option<nat> {
    if commands == [] then P.None
    else if commands[0].HangUp? then P.Some(0)
    else match FirstHangUp(commands[1..]) case None => P.None case Some(n) => P.Some(1 + n)
  }

  lemma {:induction false} HangUpAppend(a: seq<Command>, c: Command)
    ensures FirstHangUp(a + [c]) ==
            if FirstHangUp(a).Some? then FirstHangUp(a) else if c.HangUp? then P.Some(|Said(a)|) else P.None
  {
    if a == [] {
      assert a + [c] == [c] && [c][1..] == [];
    } else {
      HangUpAppend(a[1..], c);
      assert (a + [c])[1..] == a[1..] + [c];
    }
  }

  lemma SaidNext(a: seq<Command>, c: Command)
    ensures Said(a + [c]) == Said(a) + (if c.Say? then [c.msg] else [])
  {
    SaidAppend(a, [c]);
    assert [c][1..] == [];
  }

  /** The pump's history is what it was told. */
  ghost predicate Follows(p: P.Pump, told: seq<Command>) {
    p.posted == Said(told) && p.firstClose == FirstHangUp(told)
  }

  lemma TaskFollows(p: P.Pump, told: seq<Command>)
    requires p.tasks != [] && Follows(p, told)
    ensures Follows(P.RunFirst(p), told)
  {
  }

  lemma OtherFollows(p: P.Pump, a: P.Action, told: seq<Command>)
    requires P.Enabled(p, a) && Follows(p, told) && !a.RunTask? && !a.PostSend? && !a.PostFlushClose?
    ensures Follows(P.Apply(p, a), told)
  {
  }

  lemma StepFollows(p: P.Pump, a: P.Action, told: seq<Command>)
    requires P.Enabled(p, a) && Follows(p, told)
    ensures Follows(P.Apply(p, a), told + ToldBy(a))
  {
    if a.PostSend? {
      SaidNext(told, Say(a.msg));
      HangUpAppend(told, Say(a.msg));
    } else if a.PostFlushClose? {
      SaidNext(told, HangUp);
      HangUpAppend(told, HangUp);
    } else {
      assert told + [] == told;
      if a.RunTask? {
        TaskFollows(p, told);
      } else {
        OtherFollows(p, a, told);
      }
    }
  }

  lemma {:induction false} RunFollows(run: seq<P.Pump>, actions: seq<P.Action>, i: nat)
    requires P.IsRun(run, actions) && i <= |actions|
    ensures Follows(run[i], Told(actions[..i]))
  {
    if i > 0 {
      RunFollows(run, actions, i - 1);
      assert actions[..i][..i - 1] == actions[..i - 1];
      StepFollows(run[i - 1], actions[i - 1], Told(actions[..i - 1]));
    }
  }

  lemma {:induction false} FirstHangUpAt(told: seq<Command>, rest: seq<Command>)
    requires forall i :: 0 <= i < |told| ==> told[i].Say?
    ensures FirstHangUp(told + ([HangUp] + rest)) == P.Some(|Said(told)|)
    ensures Said(told) <= Said(told + ([HangUp] + rest)) && |Said(told)| == |told|
  {
    if told == [] {
      assert told + ([HangUp] + rest) == [HangUp] + rest;
    } else {
      FirstHangUpAt(told[1..], rest);
      assert (told + ([HangUp] + rest))[1..] == told[1..] + ([HangUp] + rest);
    }
  }

  lemma {:induction false} HangUpWithin(told: seq<Command>, all: seq<Command>)
    requires told <= all && FirstHangUp(told).Some?
    ensures FirstHangUp(all) == FirstHangUp(told) && Said(told) <= Said(all)
    ensures FirstHangUp(told).value <= |Said(told)|
  {
    if told != [] && told[0].Say? {
      HangUpWithin(told[1..], all[1..]);
    } else {
      assert all == told + all[|told|..];
      SaidAppend(told, all[|told|..]);
    }
  }

  /** The composed promise. A server runs, and the connection of s has been told some of what the
      run does to it. If the run sends s a Success in a handler before which it never closed s, then
      a socket of s that is closed and did not break has written that Success, and all that was sent
      to s before it, in full; and a peer that all its bytes have reached has read them. */
  lemma ClosedAfterSuccess(st: Store, before: seq<Event>, e: Event, after: seq<Event>, s: Conn,
                           run: seq<P.Pump>, actions: seq<P.Action>)
    requires Legal(before) && LegalEvent(e) && Legal(after) && Legal(before + ([e] + after))
    requires Post(s, Control(SUCCESS)) in React(StoreAfter(st, before), e).posts
    requires HangUp !in CommandsTo(s, EffectsOf(st, before))
    requires P.IsRun(run, actions) && Told(actions) <= CommandsTo(s, EffectsOf(st, before + ([e] + after)))
    requires !run[|actions|].open && !run[|actions|].failed
    ensures var p := run[|actions|];
            var sent := Said(CommandsTo(s, EffectsOf(st, before))) + [Control(SUCCESS)];
            && p.hello + Frames(sent) <= p.wire
            && ((forall m :: m in p.posted ==> Sendable(m)) ==> sent <= C.PeerReads(p, |p.wire|))
  {
    var p := run[|actions|];
    var quiet := CommandsTo(s, EffectsOf(st, before));
    var all := CommandsTo(s, EffectsOf(st, before + ([e] + after)));
    assert P.Reachable(p);
    assert actions[..|actions|] == actions;
    RunFollows(run, actions, |actions|);
    CommandsThroughSuccess(st, before, e, after, s);
    P.GracefulClose(p);
    FirstClose(quiet, all, Told(actions));
    assert p.posted[..p.firstClose.value] == Said(quiet) + [Control(SUCCESS)];
    if forall m :: m in p.posted ==> Sendable(m) {
      C.ClosedIsRead(p);
    }
  }

  lemma FirstClose(quiet: seq<Command>, all: seq<Command>, told: seq<Command>)
    requires HangUp !in quiet && quiet + [Say(Control(SUCCESS)), HangUp] <= all
    requires told <= all && FirstHangUp(told).Some?
    ensures var n := FirstHangUp(told).value;
            n <= |Said(told)| && Said(told)[..n] == Said(quiet) + [Control(SUCCESS)]
  {
    var words := quiet + [Say(Control(SUCCESS))];
    var rest := all[|words| + 1..];
    assert all == words + ([HangUp] + rest);
    forall i | 0 <= i < |words|
      ensures words[i].Say?
    {
      assert i < |quiet| ==> quiet[i] in quiet;
    }
    FirstHangUpAt(words, rest);
    SaidNext(quiet, Say(Control(SUCCESS)));
    HangUpWithin(told, all);
  }

  // ---------- a sender that sends its metadata once ----------

  predicate Stays(s: Conn, events: seq<Event>) {
    forall e :: e in events && e.Gone? ==> e.client != s
  }

  lemma {:induction false} NoHangUpInPosts(s: Conn, posts: seq<Post>)
    ensures HangUp !in CommandsTo(s, PostedAll(posts))
  {
    if posts != [] {
      NoHangUpInPosts(s, posts[1..]);
      assert PostedAll(posts)[1..] == PostedAll(posts[1..]);
    }
  }

  lemma {:induction false} HangUpInClosing(s: Conn, closing: seq<Conn>)
    ensures HangUp in CommandsTo(s, CloseAll(closing)) <==> s in closing
  {
    if closing != [] {
      HangUpInClosing(s, closing[1..]);
      assert CloseAll(closing)[1..] == CloseAll(closing[1..]);
      assert closing == [closing[0]] + closing[1..];
    }
  }

  lemma HangUpIsClosing(o: Outcome, s: Conn)
    ensures HangUp in CommandsTo(s, o.Effects()) <==> s in o.closing
  {
    CommandsAppend(s, PostedAll(o.posts), CloseAll(o.closing));
    NoHangUpInPosts(s, o.posts);
    HangUpInClosing(s, o.closing);
  }

  /** Being told to close takes a client out of the storage it was in. */
  lemma ClosingForgets(st: Store, open: set<Conn>, c: Conn, m: Message, s: Conn)
    requires Chained(st) && Decodable(m) && s in Handle(st, open, c, m).closing
    ensures s in st.contexts && s !in Handle(st, open, c, m).store.contexts
  {
    if c in st.sessions {
    } else if c in st.pairs.right {
      assert st.pairs.right[c] in st.pairs.left;
    }
  }

  /** A client that sends its metadata at most once, stays connected and is still pending has not been
      told to close. */
  lemma {:induction false} NotToldYet(st: Store, events: seq<Event>, s: Conn)
    requires Chained(st) && Legal(events) && Stays(s, events)
    requires Pending(st, s) + SendsFrom(s, events) <= 1
    requires s in StoreAfter(st, events).contexts
    ensures HangUp !in CommandsTo(s, EffectsOf(st, events))
    decreases |events|
  {
    if events != [] {
      var e, rest := events[0], events[1..];
      var o := React(st, e);
      ConservationStep(st, e, s);
      ReactChained(st, e);
      ConservationFrom(o.store, rest, s);
      HangUpIsClosing(o, s);
      assert e in events;
      if s in o.closing {
        ClosingForgets(st, e.open, e.from, e.msg, s);
        assert false;
      }
      NotToldYet(o.store, rest, s);
      CommandsAppend(s, o.Effects(), EffectsOf(o.store, rest));
    }
  }

  /** The promise to every sender that follows its program: it sends its metadata once. From the
      start of the server on, the socket of a confirmed sender that closed and did not break has
      written the Success in full, and a peer that all its bytes have reached has read it. */
  lemma SenderHearsSuccess(before: seq<Event>, e: Event, after: seq<Event>, s: Conn,
                           run: seq<P.Pump>, actions: seq<P.Action>)
    requires Legal(before) && LegalEvent(e) && Legal(after) && Legal(before + ([e] + after))
    requires SendsFrom(s, before) <= 1 && Stays(s, before)
    requires Post(s, Control(SUCCESS)) in React(StoreAfter(EMPTY_STORE, before), e).posts
    requires P.IsRun(run, actions)
    requires Told(actions) <= CommandsTo(s, EffectsOf(EMPTY_STORE, before + ([e] + after)))
    requires !run[|actions|].open && !run[|actions|].failed
    ensures var p := run[|actions|];
            var sent := Said(CommandsTo(s, EffectsOf(EMPTY_STORE, before))) + [Control(SUCCESS)];
            && p.hello + Frames(sent) <= p.wire
            && ((forall m :: m in p.posted ==> Sendable(m)) ==> sent <= C.PeerReads(p, |p.wire|))
  {
    var st := StoreAfter(EMPTY_STORE, before);
    StorageChain(before);
    ConfirmedIsPending(st, e, s);
    NotToldYet(EMPTY_STORE, before, s);
    ClosedAfterSuccess(EMPTY_STORE, before, e, after, s, run, actions);
  }

  lemma ConfirmedIsPending(st: Store, e: Event, s: Conn)
    requires Chained(st) && LegalEvent(e) && Post(s, Control(SUCCESS)) in React(st, e).posts
    ensures s in st.contexts
  {
    SuccessCause(st, e, s);
    assert SendsSuccess(React(st, e).posts, s);
    assert s in st.pairs.left;
  }
}
