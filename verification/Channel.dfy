/** The write pump of one end and the frame reader of the other make a first-in first-out
    channel: at every moment what has been read is a prefix of what was sent. */
module Channel {
  import opened Bytes
  import opened NetMessage
  import opened Framing
  import opened Links
  import opened WritePump

  /** What the peer has read when the first n bytes of the wire have reached it. */
  function PeerReads(p: Pump, n: nat): seq<Message>
    requires n <= |p.wire|
  {
    Received(p.hello, p.wire[..n])
  }

  /** What a reachable pump says about its wire. */
  ghost predicate WireGood(p: Pump) {
    && (if p.validated then |p.hello| == HANDSHAKE else p.wire == [] && p.hello == [] && p.posted == [])
    && p.wire <= p.hello + Frames(p.posted)
    && p.hello + Frames(p.written) <= p.wire
    && p.written <= p.posted
  }

  lemma ReachableWire(p: Pump)
    requires Reachable(p)
    ensures WireGood(p)
  {
    PumpRefinement(p);
    Unvalidated(p);
    Assoc(p.written, p.out, Pushed(p.tasks));
  }

  lemma Unvalidated(p: Pump)
    requires Reachable(p)
    ensures if p.validated then |p.hello| == HANDSHAKE else p.wire == [] && p.hello == [] && p.posted == []
  {
    ReachableInv(p);
    if !p.validated {
      assert p.written == [] && p.out == [] && Frames([]) == [];
      assert p.wire == [] + [] + [];
    }
  }

  /** How many messages the first n bytes hold in full. */
  function ReadCount(p: Pump, n: nat): nat {
    if n < HANDSHAKE then 0 else CompleteFrames(p.posted, n - HANDSHAKE)
  }

  lemma ReadsExactly(p: Pump, n: nat)
    requires WireGood(p) && n <= |p.wire|
    requires forall m :: m in p.posted ==> Sendable(m)
    ensures ReadCount(p, n) <= |p.posted| && PeerReads(p, n) == p.posted[..ReadCount(p, n)]
  {
    if p.validated {
      DirectionDelivery(p.hello, p.hello, p.posted, p.wire[..n]);
    }
  }

  /** Whatever the interleaving, the errors and the delay of the network, the peer reads a prefix
      of the messages whose send returned true, in the order they were posted. It has all the
      messages that were written as soon as the bytes have arrived. */
  lemma FifoChannel(p: Pump, n: nat)
    requires Reachable(p) && n <= |p.wire|
    requires forall m :: m in p.posted ==> Sendable(m)
    ensures PeerReads(p, n) <= p.posted
    ensures p.written <= PeerReads(p, |p.wire|)
  {
    ReachableWire(p);
    ReadsExactly(p, n);
    ReadsExactly(p, |p.wire|);
    WrittenIsComplete(p);
  }

  lemma WrittenIsComplete(p: Pump)
    requires WireGood(p) && forall m :: m in p.posted ==> Sendable(m)
    ensures |p.written| <= ReadCount(p, |p.wire|)
  {
    if p.validated {
      assert |p.hello + Frames(p.written)| <= |p.wire|;
      FittingFramesAreComplete(p.written, p.posted, |p.wire| - HANDSHAKE);
    }
  }

  /** A flush that returned and a graceful close both reach the peer: when the whole wire has
      arrived, it has every message that was promised to it. */
  lemma FlushedIsRead(p: Pump)
    requires Reachable(p) && FlushReturns(p)
    requires forall m :: m in p.posted ==> Sendable(m)
    ensures PeerReads(p, |p.wire|) == p.posted
  {
    FlushedIsWritten(p);
    FifoChannel(p, |p.wire|);
  }

  lemma FlushedIsWritten(p: Pump)
    requires Reachable(p) && FlushReturns(p)
    ensures p.posted == p.written
  {
    ReachableInv(p);
    assert p.posted == p.written + [] + [];
  }

  lemma ClosedIsRead(p: Pump)
    requires Reachable(p) && !p.open && !p.failed
    requires forall m :: m in p.posted ==> Sendable(m)
    ensures p.firstClose.Some? && p.firstClose.value <= |p.posted|
    ensures p.posted[..p.firstClose.value] <= PeerReads(p, |p.wire|)
  {
    ClosedIsWritten(p);
    FifoChannel(p, |p.wire|);
    assert p.posted[..p.firstClose.value] == p.written[..p.firstClose.value];
  }

  lemma ClosedIsWritten(p: Pump)
    requires Reachable(p) && !p.open && !p.failed
    ensures p.firstClose.Some? && p.firstClose.value <= |p.written| <= |p.posted|
    ensures p.written <= p.posted
  {
    ReachableInv(p);
  }

  // ---------- the channel of the relay ----------

  /** A connection takes messages while it is open, and from calls of send that found it open. */
  predicate Accepts(p: Pump) {
    p.open || p.checked != multiset{} || p.counted != multiset{}
  }

  /** What the relay sees of a pump of which n bytes have reached the peer. */
  function LinkOf(p: Pump, n: nat): Link
    requires n <= |p.wire|
  {
    Link(p.posted, |PeerReads(p, n)|, Accepts(p))
  }

  /** What only the steps of send and the network change. */
  predicate Untouched(p: Pump, q: Pump) {
    && q.wire == p.wire && q.hello == p.hello && q.posted == p.posted
    && q.checked == p.checked && q.counted == p.counted && (q.open ==> p.open)
  }

  lemma TaskUntouched(p: Pump)
    requires p.tasks != []
    ensures Untouched(p, RunFirst(p))
  {
  }

  lemma WriteUntouched(p: Pump, i: nat)
    requires i < |p.ops|
    ensures Untouched(p, Completed(p, i))
  {
  }

  lemma CountUntouched(p: Pump)
    ensures Untouched(p, Decremented(p)) && Untouched(p, Continued(p))
  {
  }

  lemma OtherUntouched(p: Pump, a: Action)
    requires Enabled(p, a) && !a.RunTask? && !a.Validate? && !a.Transmit?
    requires !a.CheckSend? && !a.CountSend? && !a.PostSend?
    ensures Untouched(p, Apply(p, a))
  {
    if a.CompleteWrite? {
      WriteUntouched(p, a.i);
    } else if a.Decrement? || a.Continue? {
      CountUntouched(p);
    }
  }

  /** Bytes are only ever added to the wire. */
  lemma WireGrows(p: Pump, a: Action)
    requires Enabled(p, a)
    ensures p.wire <= Apply(p, a).wire
    ensures !a.Validate? ==> Apply(p, a).hello == p.hello
  {
    if a.RunTask? {
      TaskUntouched(p);
    } else if !a.Validate? && !a.Transmit? && !a.CheckSend? && !a.CountSend? && !a.PostSend? {
      OtherUntouched(p, a);
    }
  }

  lemma SendMoves(p: Pump, a: Action)
    requires Enabled(p, a) && (a.Validate? || a.Transmit? || a.CheckSend? || a.CountSend? || a.PostSend?)
    ensures Apply(p, a).posted == if a.PostSend? then p.posted + [a.msg] else p.posted
    ensures a.PostSend? ==> Accepts(p)
    ensures Accepts(Apply(p, a)) ==> Accepts(p)
  {
  }

  lemma SentGrows(p: Pump, a: Action)
    requires Enabled(p, a)
    ensures Apply(p, a).posted == if a.PostSend? then p.posted + [a.msg] else p.posted
    ensures a.PostSend? ==> Accepts(p)
    ensures Accepts(Apply(p, a)) ==> Accepts(p)
  {
    if a.RunTask? {
      TaskUntouched(p);
    } else if a.Validate? || a.Transmit? || a.CheckSend? || a.CountSend? || a.PostSend? {
      SendMoves(p, a);
    } else {
      OtherUntouched(p, a);
    }
  }

  lemma SameReads(p: Pump, a: Action, n: nat)
    requires WireGood(p) && Enabled(p, a) && n <= |p.wire|
    ensures n <= |Apply(p, a).wire| && PeerReads(Apply(p, a), n) == PeerReads(p, n)
  {
    WireGrows(p, a);
    assert Apply(p, a).wire[..n] == p.wire[..n];
  }

  /** Every step of every thread moves the channel by a send, a closing, both, or not at all. */
  lemma StepMovesLink(p: Pump, a: Action, n: nat)
    requires Reachable(p) && Enabled(p, a) && n <= |p.wire|
    ensures n <= |Apply(p, a).wire| && LinkSteps(LinkOf(p, n), LinkOf(Apply(p, a), n))
  {
    ReachableWire(p);
    SameReads(p, a, n);
    SentGrows(p, a);
    SentThenClosed(p.posted, Apply(p, a).posted, |PeerReads(p, n)|, Accepts(p), Accepts(Apply(p, a)));
  }

  lemma {:induction false} OneMoreByte(ms: seq<Message>, n: nat)
    ensures CompleteFrames(ms, n) <= CompleteFrames(ms, n + 1) <= CompleteFrames(ms, n) + 1
  {
    if ms != [] && |Frame(ms[0])| <= n {
      OneMoreByte(ms[1..], n - |Frame(ms[0])|);
    } else if ms != [] {
      NothingIn(ms[1..]);
    }
  }

  lemma ReadsGrow(p: Pump, n: nat)
    ensures ReadCount(p, n) <= ReadCount(p, n + 1) <= ReadCount(p, n) + 1
  {
    if n >= HANDSHAKE {
      OneMoreByte(p.posted, n - HANDSHAKE);
    } else {
      NothingIn(p.posted);
    }
  }

  /** Every byte that arrives moves it by the next message, or not at all. */
  lemma ByteMovesLink(p: Pump, n: nat)
    requires Reachable(p) && n < |p.wire|
    requires forall m :: m in p.posted ==> Sendable(m)
    ensures LinkStep(LinkOf(p, n), LinkOf(p, n + 1))
    ensures PeerReads(p, n) <= PeerReads(p, n + 1)
  {
    ReachableWire(p);
    ReadsExactly(p, n);
    ReadsExactly(p, n + 1);
    ReadsGrow(p, n);
    PrefixesMove(p.posted, PeerReads(p, n), PeerReads(p, n + 1), Accepts(p));
  }

  lemma PrefixesMove(posted: seq<Message>, a: seq<Message>, b: seq<Message>, accepts: bool)
    requires a <= posted && b <= posted && |a| <= |b| <= |a| + 1
    ensures LinkStep(Link(posted, |a|, accepts), Link(posted, |b|, accepts)) && a <= b
  {
    TakenOrNot(posted, |a|, |b|, accepts);
  }

  lemma NothingIn(ms: seq<Message>)
    ensures CompleteFrames(ms, 0) == 0
  {
    if ms != [] {
      assert |Frame(ms[0])| > 0;
    }
  }
}
