/** When a flush returns: progress of the write pump, and what an error or a close leaves of it. */
module Flushes {
  import opened Bytes
  import opened NetMessage
  import opened Framing
  import opened WritePump

  // ---------- progress of a flush ----------

  predicate IoAction(a: Action) {
    a.RunTask? || a.Transmit? || a.CompleteWrite? || a.Decrement? || a.Continue?
  }

  function MessageCost(m: Message): nat {
    HEADER + |m.body| + 6
  }

  function TaskCost(tasks: seq<Task>): nat {
    if tasks == [] then 0
    else (if tasks[0].Push? then MessageCost(tasks[0].msg) + 3 else 1) + TaskCost(tasks[1..])
  }

  function QueueCost(out: seq<Message>): nat {
    if out == [] then 0 else MessageCost(out[0]) + QueueCost(out[1..])
  }

  /** The work left for the I/O thread. */
  function Work(p: Pump): int {
    TaskCost(p.tasks) + QueueCost(p.out) - |p.front|
    + (if p.out == [] then 0 else if p.ops == [] then 3 else if p.ops[0].ofBody then 1 else 2)
    + (match p.handler case Idle => 0 case JustCounted => 1 case JustPopped => 2)
  }

  lemma {:induction false} QueueCostAppend(out: seq<Message>, m: Message)
    ensures QueueCost(out + [m]) == QueueCost(out) + MessageCost(m)
  {
    if out == [] {
      assert out + [m] == [m] && [m][1..] == [];
    } else {
      QueueCostAppend(out[1..], m);
      assert (out + [m])[1..] == out[1..] + [m];
    }
  }

  lemma TaskUsesWork(p: Pump)
    requires p.handler.Idle? && p.tasks != [] && (p.out == [] ==> p.ops == [])
    ensures Work(RunFirst(p)) < Work(p)
  {
    if p.tasks[0].Push? {
      PushUsesWork(p);
    } else {
      CloseUsesWork(p);
    }
  }

  lemma CloseUsesWork(p: Pump)
    requires p.tasks != [] && !p.tasks[0].Push?
    ensures Work(RunFirst(p)) == Work(p) - 1
  {
    var q := RunFirst(p);
    assert q.out == p.out && q.ops == p.ops && q.front == p.front && q.handler == p.handler;
    CloseCost(p.tasks);
  }

  lemma CloseCost(tasks: seq<Task>)
    requires tasks != [] && !tasks[0].Push?
    ensures TaskCost(tasks) == 1 + TaskCost(tasks[1..])
  {
  }

  lemma PushUsesWork(p: Pump)
    requires p.handler.Idle? && p.tasks != [] && p.tasks[0].Push? && (p.out == [] ==> p.ops == [])
    ensures Work(RunFirst(p)) < Work(p)
  {
    var m := p.tasks[0].msg;
    assert TaskCost(p.tasks) == MessageCost(m) + 3 + TaskCost(p.tasks[1..]);
    QueueCostAppend(p.out, m);
  }

  lemma CompletionUsesWork(p: Pump, i: nat)
    requires Inv(p) && Enabled(p, CompleteWrite(i))
    ensures Work(Completed(p, i)) < Work(p)
  {
    assert Without(p.ops, i) == [];
    assert p.front + [] == p.front;
  }

  lemma WorkIsNatural(p: Pump)
    requires Inv(p)
    ensures 0 <= Work(p)
  {
  }

  lemma OtherUsesWork(p: Pump, a: Action)
    requires Enabled(p, a) && (a.Transmit? || a.Decrement? || a.Continue?)
    requires (p.ops != [] ==> p.out != [] && |p.ops| == 1) && (!p.handler.Idle? ==> p.ops == [])
    ensures Work(Apply(p, a)) < Work(p)
  {
  }

  /** Each step of the I/O thread uses up some of its work. */
  lemma WorkDecreases(p: Pump, a: Action)
    requires Inv(p) && Enabled(p, a) && IoAction(a)
    ensures 0 <= Work(Apply(p, a)) < Work(p)
  {
    WorkStaysNatural(p, a);
    if a.RunTask? {
      TaskUsesWork(p);
    } else if a.CompleteWrite? {
      CompletionUsesWork(p, a.i);
    } else {
      OtherUsesWork(p, a);
    }
  }

  lemma WorkStaysNatural(p: Pump, a: Action)
    requires Inv(p) && Enabled(p, a)
    ensures 0 <= Work(Apply(p, a))
  {
    StepKeepsInv(p, a);
    WorkIsNatural(Apply(p, a));
  }

  /** While a connection is open and unbroken, a flush that must wait has something to wait for:
      a call of send about to post, or a step of the I/O thread that uses up its work. */
  lemma FlushProgress(p: Pump) returns (a: Action)
    requires Inv(p) && !p.failed && p.open && !FlushReturns(p)
    ensures Enabled(p, a)
    ensures if p.counted != multiset{} then a.PostSend? else IoAction(a) && 0 <= Work(Apply(p, a)) < Work(p)
  {
    if p.counted != multiset{} {
      var m :| m in p.counted;
      return PostSend(m);
    }
    assert |p.counted| == 0;
    if p.handler.JustPopped? {
      a := Decrement;
    } else if p.handler.JustCounted? {
      a := Continue;
    } else if p.out == [] {
      a := RunTask;
    } else if p.ops[0].left != [] {
      a := Transmit(0, |p.ops[0].left|);
    } else {
      a := CompleteWrite(0);
    }
    WorkDecreases(p, a);
  }

  // ---------- continuations ----------

  /** These steps lead from p to q. */
  ghost predicate Leads(p: Pump, actions: seq<Action>, q: Pump)
    decreases |actions|
  {
    if actions == [] then p == q
    else Enabled(p, actions[0]) && Leads(Apply(p, actions[0]), actions[1..], q)
  }

  lemma LeadsFirst(p: Pump, a: Action, rest: seq<Action>, q: Pump)
    requires Enabled(p, a) && Leads(Apply(p, a), rest, q)
    ensures Leads(p, [a] + rest, q)
  {
    assert ([a] + rest)[1..] == rest;
  }

  predicate NoCloseAsked(p: Pump) {
    !p.closeAfterFlush && forall t :: t in p.tasks ==> t.Push?
  }

  /** Steps that finish sends under way and drain the queue; none starts a send or a close. */
  predicate Drains(actions: seq<Action>) {
    forall a :: a in actions ==> a.PostSend? || IoAction(a)
  }

  predicate Draining(p: Pump) {
    p.open && !p.failed && NoCloseAsked(p)
  }

  lemma DrainTask(p: Pump)
    requires Draining(p) && p.tasks != []
    ensures Draining(RunFirst(p)) && RunFirst(p).counted == p.counted
  {
    assert p.tasks[0] in p.tasks;
  }

  lemma DrainStep(p: Pump, a: Action)
    requires Inv(p) && Draining(p) && Enabled(p, a) && IoAction(a)
    ensures Draining(Apply(p, a)) && Apply(p, a).counted == p.counted
  {
    if a.RunTask? {
      DrainTask(p);
    }
  }

  lemma DrainSend(p: Pump, m: Message)
    requires Draining(p) && Enabled(p, PostSend(m))
    ensures Draining(Apply(p, PostSend(m))) && |Apply(p, PostSend(m)).counted| == |p.counted| - 1
  {
  }

  /** From every state of an open, unbroken connection that nobody closes, the sends under way and
      the I/O thread alone bring a flush to its end. */
  lemma {:induction false} FlushCanReturn(p: Pump) returns (actions: seq<Action>, q: Pump)
    requires Inv(p) && Draining(p)
    ensures Leads(p, actions, q) && Drains(actions) && FlushReturns(q)
    decreases |p.counted|, Work(p)
  {
    if FlushReturns(p) {
      return [], p;
    }
    var a := FlushProgress(p);
    StepKeepsInv(p, a);
    if a.PostSend? {
      DrainSend(p, a.msg);
    } else {
      DrainStep(p, a);
    }
    var rest;
    rest, q := FlushCanReturn(Apply(p, a));
    LeadsFirst(p, a, rest, q);
    actions := [a] + rest;
  }

  lemma FlushReturnsFromHere(p: Pump) returns (actions: seq<Action>, q: Pump)
    requires Reachable(p) && Draining(p)
    ensures Leads(p, actions, q) && Drains(actions) && FlushReturns(q)
  {
    ReachableInv(p);
    actions, q := FlushCanReturn(p);
  }

  // ---------- every way to drain ----------

  function Posts(actions: seq<Action>): seq<Message> {
    if actions == [] then []
    else (if actions[0].PostSend? then [actions[0].msg] else []) + Posts(actions[1..])
  }

  /** The work that posting these messages brings to the I/O thread. */
  function PostCost(ms: seq<Message>): nat {
    if ms == [] then 0 else MessageCost(ms[0]) + 3 + PostCost(ms[1..])
  }

  lemma {:induction false} TaskCostAppend(tasks: seq<Task>, m: Message)
    ensures TaskCost(tasks + [Push(m)]) == TaskCost(tasks) + MessageCost(m) + 3
  {
    if tasks == [] {
      assert tasks + [Push(m)] == [Push(m)] && [Push(m)][1..] == [];
    } else {
      TaskCostAppend(tasks[1..], m);
      assert (tasks + [Push(m)])[1..] == tasks[1..] + [Push(m)];
    }
  }

  lemma PostWork(p: Pump, m: Message)
    requires Enabled(p, PostSend(m))
    ensures Work(Apply(p, PostSend(m))) == Work(p) + MessageCost(m) + 3
    ensures multiset{m} + Apply(p, PostSend(m)).counted == p.counted
  {
    TaskCostAppend(p.tasks, m);
  }

  lemma SameCounted(p: Pump, a: Action)
    requires Enabled(p, a) && IoAction(a)
    ensures Apply(p, a).counted == p.counted
  {
    if a.RunTask? {
      TaskKeepsCounted(p);
    }
  }

  lemma TaskKeepsCounted(p: Pump)
    requires p.tasks != []
    ensures RunFirst(p).counted == p.counted
  {
  }

  lemma PostsOfOne(a: Action)
    ensures Posts([a]) == if a.PostSend? then [a.msg] else []
    ensures PostCost(Posts([a])) == if a.PostSend? then MessageCost(a.msg) + 3 else 0
  {
    assert [a][1..] == [];
    if a.PostSend? {
      assert Posts([a]) == [a.msg] + Posts([]) && [a.msg][1..] == [];
    } else {
      assert Posts([a]) == [] + Posts([]);
    }
  }

  /** From work w to work w' in so many steps, with these posts out of the sends under way. */
  predicate Spends(w: int, counted: multiset<Message>, steps: nat, posts: seq<Message>,
                   w': int, counted': multiset<Message>)
  {
    steps + w' <= w + |posts| + PostCost(posts) && multiset(posts) + counted' == counted
  }

  lemma PostSpends(p: Pump, m: Message)
    requires Enabled(p, PostSend(m))
    ensures var q := Apply(p, PostSend(m));
            Spends(Work(p), p.counted, 1, Posts([PostSend(m)]), Work(q), q.counted)
  {
    PostsOfOne(PostSend(m));
    PostWork(p, m);
  }

  lemma IoSpends(p: Pump, a: Action)
    requires Inv(p) && Enabled(p, a) && IoAction(a)
    ensures Spends(Work(p), p.counted, 1, Posts([a]), Work(Apply(p, a)), Apply(p, a).counted)
  {
    PostsOfOne(a);
    WorkDecreases(p, a);
    SameCounted(p, a);
  }

  /** A draining step costs one unit of work, unless it posts, which brings new work. */
  lemma OneDrain(p: Pump, a: Action)
    requires Inv(p) && Enabled(p, a) && (a.PostSend? || IoAction(a))
    ensures Spends(Work(p), p.counted, 1, Posts([a]), Work(Apply(p, a)), Apply(p, a).counted)
  {
    if a.PostSend? {
      PostSpends(p, a.msg);
    } else {
      IoSpends(p, a);
    }
  }

  lemma PostsFirst(a: Action, rest: seq<Action>)
    ensures Posts([a] + rest) == Posts([a]) + Posts(rest)
    ensures PostCost(Posts([a] + rest)) == PostCost(Posts([a])) + PostCost(Posts(rest))
  {
    PostsOfOne(a);
    assert ([a] + rest)[1..] == rest;
    if a.PostSend? {
      assert ([a.msg] + Posts(rest))[1..] == Posts(rest);
    } else {
      assert [] + Posts(rest) == Posts(rest);
    }
  }

  lemma SpendsMore(w0: int, c0: multiset<Message>, a: Action, w1: int, c1: multiset<Message>,
                   rest: seq<Action>, w2: int, c2: multiset<Message>)
    requires Spends(w0, c0, 1, Posts([a]), w1, c1) && Spends(w1, c1, |rest|, Posts(rest), w2, c2)
    ensures Spends(w0, c0, 1 + |rest|, Posts([a] + rest), w2, c2)
  {
    PostsFirst(a, rest);
  }

  /** Every sequence of such steps is finite, from any reachable state: it posts no message but those
      of the sends under way, and takes at most one step for each post and each unit of work. */
  lemma {:induction false} DrainsAreFinite(p: Pump, actions: seq<Action>, q: Pump)
    requires Inv(p) && Leads(p, actions, q) && Drains(actions)
    ensures Spends(Work(p), p.counted, |actions|, Posts(actions), Work(q), q.counted)
    decreases |actions|
  {
    if actions != [] {
      var a, rest := actions[0], actions[1..];
      var next := Apply(p, a);
      assert a in actions && actions == [a] + rest;
      OneDrain(p, a);
      StepKeepsInv(p, a);
      DrainsAreFinite(next, rest, q);
      SpendsMore(Work(p), p.counted, a, Work(next), next.counted, rest, Work(q), q.counted);
    }
  }

  lemma {:induction false} LeadsKeepsInv(p: Pump, actions: seq<Action>, q: Pump)
    requires Inv(p) && Leads(p, actions, q)
    ensures Inv(q)
    decreases |actions|
  {
    if actions != [] {
      StepKeepsInv(p, actions[0]);
      LeadsKeepsInv(Apply(p, actions[0]), actions[1..], q);
    }
  }

  /** No such step is left. */
  ghost predicate Drained(p: Pump) {
    forall a :: Enabled(p, a) ==> !a.PostSend? && !IoAction(a)
  }

  lemma NotDrainedYet(p: Pump)
    requires Inv(p) && p.open && !p.failed && !FlushReturns(p)
    ensures !Drained(p)
  {
    var a := FlushProgress(p);
    assert Enabled(p, a) && (a.PostSend? || IoAction(a));
  }

  lemma {:induction false} StaysDraining(p: Pump, actions: seq<Action>, q: Pump)
    requires Inv(p) && Draining(p) && Leads(p, actions, q) && Drains(actions)
    ensures Draining(q)
    decreases |actions|
  {
    if actions != [] {
      var a := actions[0];
      assert a in actions;
      StepKeepsInv(p, a);
      if a.PostSend? {
        DrainSend(p, a.msg);
      } else {
        DrainStep(p, a);
      }
      StaysDraining(Apply(p, a), actions[1..], q);
    }
  }

  /** Every way to drain is bounded by what is there to do. */
  lemma DrainBound(p: Pump, actions: seq<Action>, q: Pump)
    requires Inv(p) && Leads(p, actions, q) && Drains(actions)
    ensures |actions| <= Work(p) + |Posts(actions)| + PostCost(Posts(actions))
    ensures multiset(Posts(actions)) <= p.counted
    ensures Inv(q)
  {
    DrainsAreFinite(p, actions, q);
    LeadsKeepsInv(p, actions, q);
    WorkIsNatural(q);
  }

  /** Whatever order the threads run in, a flush returns: every way to drain an open, unbroken
      connection that nobody closes ends, and it ends where a flush returns. */
  lemma EveryDrainFlushes(p: Pump, actions: seq<Action>, q: Pump)
    requires Reachable(p) && Draining(p) && Leads(p, actions, q) && Drains(actions)
    ensures |actions| <= Work(p) + |Posts(actions)| + PostCost(Posts(actions))
    ensures multiset(Posts(actions)) <= p.counted
    ensures Drained(q) ==> FlushReturns(q)
  {
    ReachableInv(p);
    DrainBound(p, actions, q);
    StaysDraining(p, actions, q);
    if !FlushReturns(q) {
      NotDrainedYet(q);
    }
  }

  /** With a close asked for, every drain still ends: in a flush that returns, or with the socket
      closed, where FlushAfterClose says whether a flush can still return. */
  lemma EveryDrainEnds(p: Pump, actions: seq<Action>, q: Pump)
    requires Reachable(p) && Leads(p, actions, q) && Drains(actions)
    ensures |actions| <= Work(p) + |Posts(actions)| + PostCost(Posts(actions))
    ensures multiset(Posts(actions)) <= p.counted
    ensures Drained(q) ==> FlushReturns(q) || !q.open || q.failed
  {
    ReachableInv(p);
    DrainBound(p, actions, q);
    if q.open && !q.failed && !FlushReturns(q) {
      NotDrainedYet(q);
    }
  }

  // ---------- after an error or a close ----------

  /** After a failed write the front message is stuck and a flush never returns again. */
  predicate Stuck(p: Pump) {
    p.failed && p.ops == [] && p.out != [] && p.handler.Idle?
  }

  lemma FailedWriteSticks(p: Pump, i: nat)
    requires Reachable(p) && Enabled(p, FailWrite(i))
    ensures Stuck(Apply(p, FailWrite(i)))
  {
    ReachableInv(p);
    assert Without(p.ops, i) == [];
  }

  predicate SameStuck(p: Pump, q: Pump) {
    Stuck(q) && q.written == p.written
  }

  lemma StuckForever(p: Pump, a: Action)
    requires Stuck(p) && Enabled(p, a)
    ensures SameStuck(p, Apply(p, a))
  {
  }

  lemma StuckStep(run: seq<Pump>, actions: seq<Action>, k: nat)
    requires IsRun(run, actions) && k < |actions| && Stuck(run[k])
    ensures SameStuck(run[k], run[k + 1])
  {
    StuckForever(run[k], actions[k]);
  }

  lemma {:induction false} StuckAlong(run: seq<Pump>, i: nat, j: nat)
    requires i <= j < |run| && Stuck(run[i])
    requires forall k :: i <= k < j && Stuck(run[k]) ==> SameStuck(run[k], run[k + 1])
    ensures SameStuck(run[i], run[j])
  {
    if i < j {
      StuckAlong(run, i, j - 1);
      assert SameStuck(run[j - 1], run[j - 1 + 1]);
    }
  }

  /** In no continuation of a run does a flush return after a failed write. */
  lemma NeverFlushedAgain(run: seq<Pump>, actions: seq<Action>, i: nat, j: nat)
    requires IsRun(run, actions) && i <= j <= |actions| && Stuck(run[i])
    ensures Stuck(run[j]) && !FlushReturns(run[j]) && run[j].written == run[i].written
  {
    forall k | i <= k < j && Stuck(run[k])
      ensures SameStuck(run[k], run[k + 1])
    {
      StuckStep(run, actions, k);
    }
    StuckAlong(run, i, j);
  }

  /** A closed socket has everything posted in full, and only the handler of the last write, or its
      decrement, is still to come. */
  predicate LastGasp(p: Pump) {
    && p.counted == multiset{} && Pushed(p.tasks) == []
    && (p.out == [] || (|p.out| == 1 && p.ops != [] && p.front == Frame(p.out[0])))
  }

  lemma ClosingTasks(tasks: seq<Task>, t: Task)
    ensures Pushed(tasks + [t]) == Pushed(tasks) + (if t.Push? then [t.msg] else [])
  {
    PushedAppend(tasks, [t]);
    assert [t][1..] == [];
  }

  lemma NoGaspAfterTask(p: Pump)
    requires Inv(p) && !LastGasp(p) && p.handler.Idle? && p.tasks != []
    ensures !LastGasp(RunFirst(p))
  {
    if p.tasks[0].Push? && p.out == [] {
      assert |Header(p.tasks[0].msg)| > 0;
    }
  }

  lemma NoGaspAfterWrite(p: Pump, i: nat)
    requires Inv(p) && !LastGasp(p) && p.handler.Idle? && i < |p.ops| && p.ops[i].left == []
    ensures !LastGasp(Completed(p, i))
  {
    assert Without(p.ops, i) == [];
    assert p.front + [] == p.front;
  }

  /** Once lost, the last gasp does not come back. */
  lemma NoGaspStep(p: Pump, a: Action)
    requires Inv(p) && !p.open && !LastGasp(p) && Enabled(p, a)
    ensures !Apply(p, a).open && !LastGasp(Apply(p, a))
  {
    match a
    case PostSend(m) => ClosingTasks(p.tasks, Push(m));
    case PostFlushClose => ClosingTasks(p.tasks, FlushClose);
    case PostClose => ClosingTasks(p.tasks, CloseNow);
    case RunTask => NoGaspAfterTask(p);
    case CompleteWrite(i) => NoGaspAfterWrite(p, i);
    case _ => NoGaspElse(p, a);
  }

  lemma NoGaspElse(p: Pump, a: Action)
    requires Inv(p) && !p.open && !LastGasp(p) && Enabled(p, a)
    requires !a.PostSend? && !a.PostFlushClose? && !a.PostClose? && !a.RunTask? && !a.CompleteWrite?
    ensures !Apply(p, a).open && !LastGasp(Apply(p, a))
  {
  }

  lemma {:induction false} NoGaspAlong(p: Pump, actions: seq<Action>, q: Pump)
    requires Inv(p) && !p.open && !LastGasp(p) && Leads(p, actions, q)
    ensures Inv(q) && !LastGasp(q)
    decreases |actions|
  {
    if actions != [] {
      StepKeepsInv(p, actions[0]);
      NoGaspStep(p, actions[0]);
      NoGaspAlong(Apply(p, actions[0]), actions[1..], q);
    }
  }

  lemma GaspReturns(p: Pump) returns (actions: seq<Action>, q: Pump)
    requires Inv(p) && LastGasp(p)
    ensures Leads(p, actions, q) && FlushReturns(q)
  {
    actions, q := [], p;
    if p.out != [] {
      assert Without(p.ops, 0) == [];
      var popped := Apply(p, CompleteWrite(0));
      q := Apply(popped, Decrement);
      LeadsFirst(popped, Decrement, [], q);
      LeadsFirst(p, CompleteWrite(0), [Decrement] + [], q);
      actions := [CompleteWrite(0)] + ([Decrement] + []);
    } else if p.handler.JustPopped? {
      q := Apply(p, Decrement);
      LeadsFirst(p, Decrement, [], q);
      actions := [Decrement] + [];
    }
  }

  /** Some continuation brings a flush to its end. */
  ghost predicate FlushMayReturn(p: Pump) {
    exists actions, q :: Leads(p, actions, q) && FlushReturns(q)
  }

  lemma FlushedGasps(p: Pump)
    requires Inv(p) && FlushReturns(p)
    ensures LastGasp(p)
  {
    assert |p.counted| == 0;
  }

  lemma LostForGood(p: Pump)
    requires Inv(p) && !p.open && !LastGasp(p)
    ensures !FlushMayReturn(p)
  {
    forall actions, q | Leads(p, actions, q)
      ensures !FlushReturns(q)
    {
      NoGaspAlong(p, actions, q);
      if FlushReturns(q) {
        FlushedGasps(q);
      }
    }
  }

  /** Exactly when a flush can still return once the socket is closed, by an error or on purpose:
      everything posted is on the wire and the last completion is not lost. */
  lemma FlushAfterClose(p: Pump)
    requires Reachable(p) && !p.open
    ensures LastGasp(p) <==> FlushMayReturn(p)
  {
    ReachableInv(p);
    if LastGasp(p) {
      var actions, q := GaspReturns(p);
    } else {
      LostForGood(p);
    }
  }

  /** In the last gasp the wire holds every posted message in full. */
  lemma GaspWire(p: Pump)
    requires Reachable(p) && LastGasp(p)
    ensures p.wire == p.hello + Frames(p.posted)
  {
    ReachableInv(p);
    FramesAppend(p.written, p.out);
    assert p.written + p.out + [] == p.written + p.out;
    if p.out != [] {
      assert p.out == [p.out[0]] && Frames([p.out[0]]) == Frame(p.out[0]) + Frames([]);
    }
    Assoc(p.hello, Frames(p.written), Frames(p.out));
    assert Frames([]) == [];
  }

  /** An error always closes the socket. */
  lemma {:induction false} FailedIsClosed(run: seq<Pump>, actions: seq<Action>, i: nat)
    requires IsRun(run, actions) && i <= |actions|
    ensures run[i].failed ==> !run[i].open
  {
    if i > 0 {
      FailedIsClosed(run, actions, i - 1);
    }
  }
}
