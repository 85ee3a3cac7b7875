/** One direction of a connection, as the relay sees it: what was sent, how much of it was taken,
    and whether it still accepts sends. */
module Links {
  import opened NetMessage

  datatype Link = Link(sent: seq<Message>, taken: nat, open: bool)

  /** Nothing, a send on an open link, the next message is taken, or the link closes. */
  ghost predicate LinkStep(a: Link, b: Link) {
    || b == a
    || (a.open && |b.sent| == |a.sent| + 1 && b == a.(sent := a.sent + [b.sent[|a.sent|]]))
    || (a.taken < |a.sent| && b == a.(taken := a.taken + 1))
    || b == a.(open := false)
  }

  /** At most two steps. */
  ghost predicate LinkSteps(a: Link, b: Link) {
    exists mid :: LinkStep(a, mid) && LinkStep(mid, b)
  }

  lemma TakenOrNot(sent: seq<Message>, taken: nat, next: nat, open: bool)
    requires taken <= next <= taken + 1 && next <= |sent|
    ensures LinkStep(Link(sent, taken, open), Link(sent, next, open))
  {
  }

  lemma SentThenClosed(sent: seq<Message>, next: seq<Message>, taken: nat, open: bool, open': bool)
    requires next == sent || (open && |next| == |sent| + 1 && next == sent + [next[|sent|]])
    requires open' ==> open
    ensures LinkSteps(Link(sent, taken, open), Link(next, taken, open'))
  {
    var mid := Link(next, taken, open);
    assert LinkStep(Link(sent, taken, open), mid) && LinkStep(mid, Link(next, taken, open'));
  }
}
