/** The loops in which the two programs wait for the server: establishSession of sender.cpp and
    receiver.cpp, and waitForConfirmation. The steps of the relay take messages as these loops do. */
module ReplyLoops {
  import opened Bytes
  import opened NetMessage
  import opened Codec
  import opened Server
  import opened Sessions
  import opened SessionLoops
  import opened Relay

  /** How many messages come before the first of one of these kinds. */
  function FirstOf(ms: seq<Message>, kinds: set<uint32>): (n: nat)
    ensures n <= |ms| && (forall i :: 0 <= i < n ==> ms[i].id !in kinds)
    ensures n < |ms| ==> ms[n].id in kinds
  {
    if ms == [] || ms[0].id in kinds then 0 else 1 + FirstOf(ms[1..], kinds)
  }

  lemma {:induction false} FirstOfIs(ms: seq<Message>, kinds: set<uint32>, n: nat)
    requires n <= |ms| && (forall i :: 0 <= i < n ==> ms[i].id !in kinds)
    requires n < |ms| ==> ms[n].id in kinds
    ensures FirstOf(ms, kinds) == n
  {
    if n > 0 {
      assert ms[0].id !in kinds;
      FirstOfIs(ms[1..], kinds, n - 1);
    }
  }

  // ---------- the loops ----------

  /** After the metadata: a Reject ends it, an Accept brings the chunk size, and other messages are
      skipped; if the queue is empty before either comes, the sender goes on with the size it had. An
      Accept too short for its struct would be read out of bounds; SenderNeverMisled excludes it. */
  method SenderEstablishes(queue: seq<Message>, had: nat) returns (ok: bool, size: nat)
    ensures var n := FirstOf(queue, {REJECT, ACCEPT});
            && (ok <==> n < |queue| ==> queue[n].id == ACCEPT && DecodePost(queue[n].body).Popped?)
            && size == if ok && n < |queue| then DecodePost(queue[n].body).value.maxChunk else had
  {
    var i := 0;
    while i < |queue|
      invariant i <= |queue| && forall j :: 0 <= j < i ==> queue[j].id !in {REJECT, ACCEPT}
    {
      var msg := queue[i];
      if msg.id == REJECT {
        FirstOfIs(queue, {REJECT, ACCEPT}, i);
        return false, had;
      } else if msg.id == ACCEPT {
        FirstOfIs(queue, {REJECT, ACCEPT}, i);
        match DecodePost(msg.body)
        case Short => return false, had;
        case Popped(post, _) => return true, post.maxChunk;
      }
      i := i + 1;
    }
    FirstOfIs(queue, {REJECT, ACCEPT}, i);
    return true, had;
  }

  /** After the request: a Reject ends it, and otherwise the user is asked. */
  method ReceiverEstablishes(queue: seq<Message>) returns (ok: bool)
    ensures var n := FirstOf(queue, {REJECT, ACCEPT}); ok <==> n < |queue| ==> queue[n].id == ACCEPT
  {
    var i := 0;
    while i < |queue|
      invariant i <= |queue| && forall j :: 0 <= j < i ==> queue[j].id !in {REJECT, ACCEPT}
    {
      if queue[i].id == REJECT || queue[i].id == ACCEPT {
        FirstOfIs(queue, {REJECT, ACCEPT}, i);
        return queue[i].id == ACCEPT;
      }
      i := i + 1;
    }
    FirstOfIs(queue, {REJECT, ACCEPT}, i);
    return true;
  }

  /** The wait for the confirmation: arrivals[i] is what the i-th wait finds. `done` is false while it
      still waits at the end of the arrivals. */
  method WaitForConfirmation(arrivals: seq<seq<Message>>) returns (done: bool, ok: bool)
    ensures var all := Flatten(arrivals); var n := FirstOf(all, {ABORT, SUCCESS});
            && (done <==> n < |all|)
            && (ok <==> done && all[n].id == SUCCESS)
  {
    var turns := 0;
    while turns < |arrivals|
      invariant turns <= |arrivals|
      invariant FirstOf(Flatten(arrivals[..turns]), {ABORT, SUCCESS}) == |Flatten(arrivals[..turns])|
    {
      ghost var before := Flatten(arrivals[..turns]);
      var queue := arrivals[turns];
      FlattenNext(arrivals, turns);
      PrefixFlatten(arrivals, turns + 1);
      var i := 0;
      while i < |queue|
        invariant i <= |queue| && forall j :: 0 <= j < i ==> queue[j].id !in {ABORT, SUCCESS}
      {
        if queue[i].id == ABORT || queue[i].id == SUCCESS {
          ghost var tail := Apart(before + queue, Flatten(arrivals));
          Assoc(before, queue, tail);
          Found(before, queue, tail, i, {ABORT, SUCCESS});
          return true, queue[i].id == SUCCESS;
        }
        i := i + 1;
      }
      FirstOfIs(queue, {ABORT, SUCCESS}, |queue|);
      FirstAfter(before, queue, {ABORT, SUCCESS});
      turns := turns + 1;
    }
    assert arrivals[..turns] == arrivals;
    return false, false;
  }

  lemma {:induction false} FirstAfter(before: seq<Message>, rest: seq<Message>, kinds: set<uint32>)
    requires FirstOf(before, kinds) == |before|
    ensures FirstOf(before + rest, kinds) == |before| + FirstOf(rest, kinds)
  {
    if before == [] {
      assert before + rest == rest;
    } else {
      assert (before + rest)[1..] == before[1..] + rest;
      FirstAfter(before[1..], rest, kinds);
    }
  }

  lemma Found(before: seq<Message>, queue: seq<Message>, tail: seq<Message>, i: nat, kinds: set<uint32>)
    requires FirstOf(before, kinds) == |before|
    requires i < |queue| && queue[i].id in kinds && forall j :: 0 <= j < i ==> queue[j].id !in kinds
    ensures var all := before + (queue + tail);
            FirstOf(all, kinds) == |before| + i && all[|before| + i] == queue[i]
  {
    FirstOfIs(queue + tail, kinds, i);
    FirstAfter(before, queue + tail, kinds);
  }

  lemma Apart<T>(front: seq<T>, all: seq<T>) returns (tail: seq<T>)
    requires front <= all
    ensures all == front + tail
  {
    tail := all[|front|..];
  }

  // ---------- the steps of the relay ----------

  function SenderTakes(role: Role, ms: seq<Message>): (taker: Role)
    requires role.Sender?
    ensures taker.Sender?
    decreases |ms|
  {
    if ms == [] then role else SenderTakes(SenderPops(role, ms[0]), ms[1..])
  }

  /** All messages up to and including the first of these kinds, if there is one. */
  function UpTo(ms: seq<Message>, kinds: set<uint32>): seq<Message> {
    var n := FirstOf(ms, kinds); if n < |ms| then ms[..n + 1] else ms
  }

  lemma UpToNext(ms: seq<Message>, kinds: set<uint32>)
    requires ms != []
    ensures UpTo(ms, kinds)[0] == ms[0]
    ensures UpTo(ms, kinds)[1..] == if ms[0].id in kinds then [] else UpTo(ms[1..], kinds)
    ensures ms[0].id !in kinds ==> FirstOf(ms, kinds) == 1 + FirstOf(ms[1..], kinds)
  {
  }

  /** Waiting for its reply, a sender of the relay takes messages to the same end as establishSession. */
  lemma {:induction false} TakesReply(role: Role, ms: seq<Message>)
    requires role.Sender? && (role.pc == Waiting || role.pc == Skipping)
    ensures var n, next := FirstOf(ms, {REJECT, ACCEPT}), SenderTakes(role, UpTo(ms, {REJECT, ACCEPT}));
            next == if n == |ms| then (if ms == [] then role else role.(pc := Skipping))
                    else if ms[n].id == ACCEPT && DecodePost(ms[n].body).Popped?
                         then role.(pc := Sending, size := DecodePost(ms[n].body).value.maxChunk)
                    else role.(pc := Returned(false))
    decreases |ms|
  {
    if ms != [] {
      UpToNext(ms, {REJECT, ACCEPT});
      if ms[0].id !in {REJECT, ACCEPT} {
        TakesReply(role.(pc := Skipping), ms[1..]);
      }
    }
  }

  /** In its chunk loop it ends at the first Abort, and other messages are lost. */
  lemma {:induction false} TakesInLoop(role: Role, ms: seq<Message>)
    requires role.Sender? && role.pc == Sending
    ensures SenderTakes(role, UpTo(ms, {ABORT})) ==
            if FirstOf(ms, {ABORT}) == |ms| then role else role.(pc := Finishing(false))
    decreases |ms|
  {
    if ms != [] {
      UpToNext(ms, {ABORT});
      if ms[0].id != ABORT {
        TakesInLoop(role, ms[1..]);
      }
    }
  }

  /** And waiting for the confirmation, to the same end as waitForConfirmation. */
  lemma {:induction false} TakesConfirmation(role: Role, ms: seq<Message>)
    requires role.Sender? && role.pc == Confirming
    ensures var n := FirstOf(ms, {ABORT, SUCCESS});
            SenderTakes(role, UpTo(ms, {ABORT, SUCCESS})) ==
            if n == |ms| then role else role.(pc := Returned(ms[n].id == SUCCESS))
    decreases |ms|
  {
    if ms != [] {
      UpToNext(ms, {ABORT, SUCCESS});
      if ms[0].id !in {ABORT, SUCCESS} {
        TakesConfirmation(role, ms[1..]);
      }
    }
  }

  function ReceiverTakes(h: HashFn, role: Role, ms: seq<Message>, kept: nat): (taker: Role)
    requires role.Receiver?
    ensures taker.Receiver?
    decreases |ms|
  {
    if ms == [] then role else ReceiverTakes(h, ReceiverPops(h, role, ms[0], kept), ms[1..], kept)
  }

  /** The same for a receiver and its reply. */
  lemma {:induction false} ReceiverTakesReply(h: HashFn, role: Role, ms: seq<Message>, kept: nat)
    requires role.Receiver? && (role.rpc == AwaitReply || role.rpc == Draining)
    ensures var n := FirstOf(ms, {REJECT, ACCEPT});
            ReceiverTakes(h, role, UpTo(ms, {REJECT, ACCEPT}), kept) ==
            if n == |ms| then (if ms == [] then role else role.(rpc := Draining))
            else role.(rpc := if ms[n].id == ACCEPT then Prompting else Failed)
    decreases |ms|
  {
    if ms != [] {
      UpToNext(ms, {REJECT, ACCEPT});
      if ms[0].id !in {REJECT, ACCEPT} {
        ReceiverTakesReply(h, role.(rpc := Draining), ms[1..], kept);
      }
    }
  }

  /** A queue found empty before a Reject or an Accept came: the programs go on, the sender with the chunk
      size it had. */
  lemma GoesOnWithoutReply(h: HashFn, p: Peer, a: Action)
    requires CanStep(p, a) && a.QueueEmpty?
    ensures p.role.Sender? ==> ClientStep(h, p, a) == p.(role := p.role.(pc := Sending, size := a.size))
    ensures p.role.Receiver? && p.role.rpc == Draining ==>
              ClientStep(h, p, a) == p.(role := p.role.(rpc := Prompting))
  {
  }

  // ---------- the chunk loop ----------

  /** The chunk loop of the relay, run to its end. */
  function LoopDone(h: HashFn, p: Peer): (done: Peer)
    requires p.role.Sender?
    ensures done.role.Sender?
    decreases |p.role.rest|, p.role.pc == Sending
  {
    if p.role.pc == Sending then LoopDone(h, ReadsChunk(h, p)) else p
  }

  function Turns(h: HashFn, p: Peer): nat
    requires p.role.Sender?
    decreases |p.role.rest|, p.role.pc == Sending
  {
    if p.role.pc == Sending then 1 + Turns(h, ReadsChunk(h, p)) else 0
  }

  /** It is the loop of ClientSenderSession: on an open connection it sends every chunk, in as many turns
      as that loop looks into its queue. */
  lemma {:induction false} LoopIsMainLoop(h: HashFn, p: Peer)
    requires p.role.Sender? && p.role.pc == Sending && p.clientOpen
    ensures LoopDone(h, p).up == p.up + ChunkMessages(h, p.role.rest, p.role.size)
    ensures LoopDone(h, p).role.pc == Finishing(true)
    ensures Turns(h, p) == Looks(p.role.rest, p.role.size)
    decreases |p.role.rest|
  {
    var rest, size := p.role.rest, p.role.size;
    var n := ReadCount(rest, size);
    var next := ReadsChunk(h, p);
    LooksNext(h, rest, size);
    if n == 0 {
      assert p.up + [] == p.up;
    } else if next.role.pc == Sending {
      LoopIsMainLoop(h, next);
      Assoc(p.up, [ChunkMessage(h, rest[..n])], ChunkMessages(h, rest[n..], size));
    }
  }

  /** On a closed one it fails at the first chunk. */
  lemma ClosedLoop(h: HashFn, p: Peer)
    requires p.role.Sender? && p.role.pc == Sending && !p.clientOpen
    ensures LoopDone(h, p).up == p.up && Turns(h, p) == 1
    ensures LoopDone(h, p).role.pc == Finishing(ReadCount(p.role.rest, p.role.size) == 0)
  {
    var next := ReadsChunk(h, p);
    assert next.role.pc.Finishing? && next.up == p.up;
    assert LoopDone(h, next) == next && Turns(h, next) == 0;
  }

  /** What comes after the loop: the final chunk is sent, and then the sender waits for its confirmation if
      the loop went well, and otherwise returns false. */
  lemma AfterLoop(h: HashFn, p: Peer, c: Conn)
    requires p.role.Sender? && p.role.pc == Sending
    ensures CanStep(LoopDone(h, p), SenderEnds(c))
    ensures p.clientOpen ==>
              var q := ClientStep(h, LoopDone(h, p), SenderEnds(c));
              && q.up == p.up + ChunkMessages(h, p.role.rest, p.role.size) + [FINAL] && q.role.pc == Confirming
    ensures !p.clientOpen ==>
              var q := ClientStep(h, LoopDone(h, p), SenderEnds(c));
              && q.up == p.up
              && q.role.pc == if ReadCount(p.role.rest, p.role.size) == 0 then Confirming else Returned(false)
  {
    SameEnd(h, p);
    if p.clientOpen {
      LoopIsMainLoop(h, p);
    } else {
      ClosedLoop(h, p);
    }
  }

  lemma {:induction false} SameEnd(h: HashFn, p: Peer)
    requires p.role.Sender?
    ensures LoopDone(h, p).clientOpen == p.clientOpen
    decreases |p.role.rest|, p.role.pc == Sending
  {
    if p.role.pc == Sending {
      SameEnd(h, ReadsChunk(h, p));
    }
  }
}
