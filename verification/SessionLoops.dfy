/** The two client loops of session.hpp. */
module SessionLoops {
  import opened Bytes
  import opened NetMessage
  import opened Codec
  import opened Sessions
  import opened Disks

  // ---------- sending ----------

  ghost predicate Aborts(queue: seq<Message>) {
    exists i :: 0 <= i < |queue| && queue[i].id == ABORT
  }

  /** What the i-th look into the queue finds. */
  function LookAt(inbox: seq<seq<Message>>, i: nat): seq<Message> {
    if i < |inbox| then inbox[i] else []
  }

  /** The sending loop's look into its queue: it stops at an Abort. */
  method Drain(queue: seq<Message>) returns (aborted: bool)
    ensures aborted <==> Aborts(queue)
  {
    var i := 0;
    while i < |queue|
      invariant 0 <= i <= |queue|
      invariant !Aborts(queue[..i])
    {
      if queue[i].id == ABORT {
        return true;
      }
      i := i + 1;
    }
    assert queue[..i] == queue;
    return false;
  }

  /** The body holds the data read; the digest is pushed on top. */
  method Sealed(h: HashFn, data: seq<byte>) returns (msg: Message)
    ensures msg == ChunkMessage(h, data)
  {
    var buffer := new MessageBuffer.Received(Message(CHUNK, data));
    buffer.PushValue(h(data));
    return Message(buffer.id, buffer.body);
  }

  lemma NextChunk(h: HashFn, attempts: seq<Message>, rest: seq<byte>, size: nat, all: seq<Message>)
    requires attempts + ChunkMessages(h, rest, size) == all && rest != [] && size > 0
    ensures var n := ReadCount(rest, size);
            (attempts + [ChunkMessage(h, rest[..n])]) + ChunkMessages(h, rest[n..], size) == all
  {
    var n := ReadCount(rest, size);
    Assoc(attempts, [ChunkMessage(h, rest[..n])], ChunkMessages(h, rest[n..], size));
  }

  lemma FinalLast(attempts: seq<Message>, left: seq<Message>, all: seq<Message>)
    requires attempts + left == all
    ensures var ended := attempts + [FINAL];
            ended[|ended| - 1] == FINAL && ended[..|ended| - 1] == attempts <= all
    ensures left == [] ==> attempts == all
  {
  }

  /** A connection that closes after `closesAt` sends takes these of the attempted ones. */
  function Accepted(attempts: seq<Message>, closesAt: nat): seq<Message> {
    if closesAt <= |attempts| then attempts[..closesAt] else attempts
  }

  /** The loop looks into its queue before each chunk, and once more after the last if that was full. */
  function Looks(file: seq<byte>, size: nat): nat {
    var chunks := Chunks(file, size);
    if chunks == [] || |chunks[|chunks| - 1]| == size then |chunks| + 1 else |chunks|
  }

  /** The first n looks find no Abort. */
  ghost predicate Clear(inbox: seq<seq<Message>>, n: nat) {
    forall i :: 0 <= i < n ==> !Aborts(LookAt(inbox, i))
  }

  lemma ClearNext(inbox: seq<seq<Message>>, n: nat)
    ensures Clear(inbox, n + 1) <==> Clear(inbox, n) && !Aborts(LookAt(inbox, n))
  {
  }

  lemma NotClear(inbox: seq<seq<Message>>, n: nat, looks: nat)
    requires Aborts(LookAt(inbox, n)) && n < looks
    ensures !Clear(inbox, looks)
  {
  }

  /** Why the loop stopped early, after n chunks: an Abort, or a send that failed. */
  ghost predicate Stopped(inbox: seq<seq<Message>>, n: nat, looks: nat, closesAt: nat, count: nat) {
    || (n <= closesAt && n < looks && Aborts(LookAt(inbox, n)))
    || (n == closesAt + 1 && n <= count)
  }

  /** ClientSenderSession::mainLoop. Sends succeed until the connection closes, after `closesAt` of
      them. The loop goes well exactly if the connection takes every chunk and no look finds an Abort;
      otherwise it stops at the first look that finds one, or after the first send that fails. */
  method SenderMainLoop(h: HashFn, file: seq<byte>, size: nat, inbox: seq<seq<Message>>, closesAt: nat)
    returns (ok: bool, attempts: seq<Message>, sent: seq<Message>)
    ensures attempts != [] && attempts[|attempts| - 1] == FINAL
    ensures attempts[..|attempts| - 1] <= ChunkMessages(h, file, size)
    ensures sent == Accepted(attempts, closesAt)
    ensures ok <==> |Chunks(file, size)| <= closesAt && Clear(inbox, Looks(file, size))
    ensures ok ==> attempts == ChunkMessages(h, file, size) + [FINAL]
    ensures !ok ==> Stopped(inbox, |attempts| - 1, Looks(file, size), closesAt, |Chunks(file, size)|)
    ensures Clear(inbox, |attempts| - 1)
  {
    ghost var all, looks := ChunkMessages(h, file, size), Looks(file, size);
    ghost var left := looks;
    SameCount(h, file, size);
    ok, attempts := true, [];
    var rest := file;
    var good := true;
    assert [] + all == all;
    while good && ok
      invariant attempts + ChunkMessages(h, rest, size) == all && Clear(inbox, |attempts|)
      invariant ok ==> |attempts| <= closesAt && |attempts| + left == looks
      invariant ok ==> if good then left == Looks(rest, size) else left == 0 && ChunkMessages(h, rest, size) == []
      invariant !ok ==> Stopped(inbox, |attempts|, looks, closesAt, |all|)
      decreases |rest|, good, ok
    {
      var aborted := Drain(LookAt(inbox, |attempts|));
      LooksNext(h, rest, size);
      if aborted {
        ok := false;
      } else {
        ClearNext(inbox, |attempts|);
        var n := ReadCount(rest, size);
        good := n == size;
        if n == 0 {
          break;
        }
        var chunk := Sealed(h, rest[..n]);
        NextChunk(h, attempts, rest, size, all);
        attempts, rest, left := attempts + [chunk], rest[n..], left - 1;
        ok := |attempts| <= closesAt;
      }
    }
    FinalLast(attempts, ChunkMessages(h, rest, size), all);
    if !ok {
      SenderStopped(inbox, |attempts|, looks, closesAt, |all|);
    }
    attempts := attempts + [FINAL];
    sent := Accepted(attempts, closesAt);
  }

  lemma SenderStopped(inbox: seq<seq<Message>>, n: nat, looks: nat, closesAt: nat, count: nat)
    requires Stopped(inbox, n, looks, closesAt, count)
    ensures !(count <= closesAt && Clear(inbox, looks))
  {
    if n < looks && Aborts(LookAt(inbox, n)) {
      NotClear(inbox, n, looks);
    }
  }

  lemma LooksNext(h: HashFn, rest: seq<byte>, size: nat)
    ensures var n := ReadCount(rest, size);
            if n == 0 then Looks(rest, size) == 1 && ChunkMessages(h, rest, size) == []
            else if n == size then Looks(rest, size) == 1 + Looks(rest[n..], size)
            else Looks(rest, size) == 1 && ChunkMessages(h, rest[n..], size) == []
  {
    var n := ReadCount(rest, size);
    if n > 0 {
      LooksAfter(rest[..n], Chunks(rest[n..], size), size);
    }
  }

  lemma LooksAfter(first: seq<byte>, tail: seq<seq<byte>>, size: nat)
    ensures var all := [first] + tail;
            |all| == 1 + |tail| && all[|all| - 1] == if tail == [] then first else tail[|tail| - 1]
  {
  }

  // ---------- receiving ----------

  /** Pop the digest and compare it with that of what is left of the body. */
  method Opened(h: HashFn, msg: Message) returns (ok: bool, data: seq<byte>)
    ensures ok <==> Genuine(h, msg.body)
    ensures data == (if ok then Front(msg.body) else [])
  {
    if |msg.body| < DIGEST_LENGTH {
      return false, [];
    }
    var buffer := new MessageBuffer.Received(msg);
    var hash := buffer.PopValue(DIGEST_LENGTH);
    if hash != h(buffer.body) {
      return false, [];
    }
    return true, buffer.body;
  }

  /** The loop's state after the messages taken: it goes on, and this is on the disk. */
  ghost predicate GoesOn(h: HashFn, taken: seq<Message>) {
    !TakeAll(h, NOTHING, taken).finished && !TakeAll(h, NOTHING, taken).failed
  }

  ghost predicate Stored(h: HashFn, taken: seq<Message>, disk: nat, kept: nat, out: seq<byte>, good: bool) {
    out == OnDisk(Pieces(h, taken), disk, kept) && good == (|Pieces(h, taken)| <= disk)
  }

  lemma StoredNext(h: HashFn, taken: seq<Message>, msg: Message, disk: nat, kept: nat, out: seq<byte>, good: bool)
    requires GoesOn(h, taken) && Stored(h, taken, disk, kept, out, good)
    ensures var data := Gain(h, NOTHING, msg);
            if data == [] then Stored(h, taken + [msg], disk, kept, out, good)
            else if |Pieces(h, taken)| < disk then Stored(h, taken + [msg], disk, kept, out + data, true)
            else Stored(h, taken + [msg], disk, kept, if good then out + Part(data, kept) else out, false)
    ensures |Pieces(h, taken + [msg])| == |Pieces(h, taken)| + (if Gain(h, NOTHING, msg) == [] then 0 else 1)
    ensures var next := TakeAll(h, NOTHING, taken + [msg]);
            next.finished == Take(h, NOTHING, msg).finished && next.failed == Take(h, NOTHING, msg).failed
  {
    TakeNext(h, taken, msg);
    GainSame(h, TakeAll(h, NOTHING, taken), NOTHING, msg);
    PiecesNext(h, taken, msg);
    OnDiskNext(Pieces(h, taken), Gain(h, NOTHING, msg), disk, kept);
    assert Pieces(h, taken) + [] == Pieces(h, taken);
  }

  /** What was stored of the messages taken is what is stored of all, once the loop is over. */
  lemma StoredAll(h: HashFn, taken: seq<Message>, all: seq<Message>, disk: nat, kept: nat, out: seq<byte>, good: bool)
    requires taken <= all && Stored(h, taken, disk, kept, out, good)
    requires taken == all || !GoesOn(h, taken) || !good
    ensures Stored(h, all, disk, kept, out, good)
  {
    PiecesMore(h, taken, all);
    if !good {
      OnDiskMore(Pieces(h, taken), Pieces(h, all), disk, kept);
    }
  }

  /** The messages taken in `turns` waits: each batch whole, unless a message of the last one ends
      the loop; and another wait only while nothing has ended it and the disk has taken all. */
  ghost predicate TakenIn(h: HashFn, arrivals: seq<seq<Message>>, turns: nat, disk: nat, taken: seq<Message>) {
    && turns <= |arrivals| && taken <= Flatten(arrivals[..turns])
    && (GoesOn(h, taken) ==> taken == Flatten(arrivals[..turns]))
    && (turns > 0 ==>
          var before := Flatten(arrivals[..turns - 1]);
          before <= taken && GoesOn(h, before) && |Pieces(h, before)| <= disk)
  }

  /** The body of the inner loop. */
  method TakeMessage(h: HashFn, msg: Message, ghost taken: seq<Message>, disk: nat, kept: nat,
                     out0: seq<byte>, good0: bool, writes0: nat)
    returns (finish: bool, ok: bool, out: seq<byte>, good: bool, writes: nat)
    requires GoesOn(h, taken) && Stored(h, taken, disk, kept, out0, good0)
    requires good0 ==> writes0 == |Pieces(h, taken)|
    ensures var st := TakeAll(h, NOTHING, taken + [msg]); finish == st.finished && ok == !st.failed
    ensures Stored(h, taken + [msg], disk, kept, out, good)
    ensures good ==> writes == |Pieces(h, taken + [msg])|
  {
    StoredNext(h, taken, msg, disk, kept, out0, good0);
    TakeDecides(h, NOTHING, msg);
    finish, ok, out, good, writes := false, true, out0, good0, writes0;
    if msg.id == ABORT {
      ok := false;
    } else if msg.id == CHUNK {
      var data: seq<byte>;
      ok, data := Opened(h, msg);
      if ok && good && data != [] {
        if writes < disk {
          out, writes := out + data, writes + 1;
        } else {
          out, good := out + Part(data, kept), false;
        }
      }
    } else if msg.id == FINAL_CHUNK {
      finish := true;
    }
  }

  lemma NextTaken<T>(before: seq<T>, queue: seq<T>, i: nat)
    requires i < |queue|
    ensures before + queue[..i] + [queue[i]] == before + queue[..i + 1]
  {
  }

  lemma PartTaken<T>(before: seq<T>, queue: seq<T>, i: nat)
    requires i <= |queue|
    ensures before <= before + queue[..i] <= before + queue
    ensures before + queue[..0] == before && (i == |queue| ==> before + queue[..i] == before + queue)
  {
    assert queue[..|queue|] == queue;
  }

  /** The inner loop: take the messages of a queue until one ends it or none is left. */
  method TakeQueue(h: HashFn, queue: seq<Message>, ghost before: seq<Message>, disk: nat, kept: nat,
                   out0: seq<byte>, writes0: nat)
    returns (finish: bool, ok: bool, out: seq<byte>, good: bool, writes: nat, ghost taken: seq<Message>)
    requires GoesOn(h, before) && Stored(h, before, disk, kept, out0, true) && writes0 == |Pieces(h, before)|
    ensures before <= taken <= before + queue && (GoesOn(h, taken) ==> taken == before + queue)
    ensures finish == TakeAll(h, NOTHING, taken).finished && ok == !TakeAll(h, NOTHING, taken).failed
    ensures Stored(h, taken, disk, kept, out, good) && (good ==> writes == |Pieces(h, taken)|)
  {
    finish, ok, out, good, writes, taken := false, true, out0, true, writes0, before;
    PartTaken(before, queue, 0);
    var i := 0;
    while i < |queue| && !finish && ok
      invariant i <= |queue| && taken == before + queue[..i]
      invariant finish == TakeAll(h, NOTHING, taken).finished && ok == !TakeAll(h, NOTHING, taken).failed
      invariant Stored(h, taken, disk, kept, out, good) && (good ==> writes == |Pieces(h, taken)|)
    {
      NextTaken(before, queue, i);
      finish, ok, out, good, writes := TakeMessage(h, queue[i], taken, disk, kept, out, good, writes);
      taken := taken + [queue[i]];
      i := i + 1;
    }
    PartTaken(before, queue, i);
  }

  /** ClientReceiverSession::mainLoop on a file that opened. arrivals[i] is what the queue holds
      when the i-th wait returns and until it is found empty. The disk takes `disk` writes; the next
      one fails and keeps at most `kept` bytes. `done` is false when the loop still waits at the end
      of the arrivals; `turns` is how many waits returned. */
  method ReceiverMainLoop(h: HashFn, arrivals: seq<seq<Message>>, disk: nat, kept: nat)
    returns (done: bool, ok: bool, out: seq<byte>, good: bool, turns: nat, ghost taken: seq<Message>)
    ensures out == OnDisk(Pieces(h, Flatten(arrivals)), disk, kept)
    ensures good <==> |Pieces(h, Flatten(arrivals))| <= disk
    ensures good ==> var all := TakeAll(h, NOTHING, Flatten(arrivals));
                     ok == !all.failed && done == (all.finished || all.failed)
    ensures TakenIn(h, arrivals, turns, disk, taken)
    ensures ok == !TakeAll(h, NOTHING, taken).failed
    ensures done <==> !GoesOn(h, taken) || |Pieces(h, taken)| > disk
    ensures !done ==> turns == |arrivals|
  {
    out, good, ok, taken, turns := [], true, true, [], 0;
    var finish, writes := false, 0;
    while good && !finish && ok
      invariant TakenIn(h, arrivals, turns, disk, taken)
      invariant finish == TakeAll(h, NOTHING, taken).finished && ok == !TakeAll(h, NOTHING, taken).failed
      invariant Stored(h, taken, disk, kept, out, good) && (good ==> writes == |Pieces(h, taken)|)
      decreases |arrivals| - turns
    {
      if turns == |arrivals| {
        assert arrivals[..turns] == arrivals;
        done := false;
        return;
      }
      FlattenNext(arrivals, turns);
      finish, ok, out, good, writes, taken := TakeQueue(h, arrivals[turns], taken, disk, kept, out, writes);
      turns := turns + 1;
    }
    done := true;
    PrefixFlatten(arrivals, turns);
    StoredAll(h, taken, Flatten(arrivals), disk, kept, out, good);
    TakeMore(h, taken, Flatten(arrivals));
  }
}
