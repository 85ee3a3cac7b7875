/** A connection that is told to close does close: after its flush, or at once. */
module Closings {
  import opened WritePump
  import opened Flushes

  /** A close was asked for and has not happened yet. */
  predicate CloseDue(p: Pump) {
    !NoCloseAsked(p)
  }

  /** A close that was asked for has happened or is still due; one that waits for the flush has
      something to wait for; and a broken connection is closed. */
  predicate CloseKept(p: Pump) {
    && (p.firstClose.Some? ==> !p.open || CloseDue(p))
    && (p.open && p.closeAfterFlush && p.handler.Idle? ==> p.out != [])
    && (p.failed ==> !p.open)
  }

  lemma TaskKeepsDue(p: Pump)
    requires p.tasks != [] && p.open && CloseDue(p)
    ensures !RunFirst(p).open || CloseDue(RunFirst(p))
  {
    if p.tasks[0].Push? && !p.closeAfterFlush {
      var t :| t in p.tasks && !t.Push?;
      assert t in p.tasks[1..];
    }
  }

  /** What is due stays due until the socket is closed, and a closed socket stays closed. */
  lemma StepKeepsDue(p: Pump, a: Action)
    requires Enabled(p, a) && (!p.open || CloseDue(p))
    ensures !Apply(p, a).open || CloseDue(Apply(p, a))
  {
    if a.RunTask? && p.open {
      TaskKeepsDue(p);
    } else if a.PostSend? || a.PostFlushClose? || a.PostClose? {
      assert forall t :: t in p.tasks ==> t in Apply(p, a).tasks;
    }
  }

  /** Both calls that close make a close due. */
  lemma AskingIsDue(p: Pump)
    ensures CloseDue(Apply(p, PostFlushClose)) && CloseDue(Apply(p, PostClose))
  {
    assert FlushClose in Apply(p, PostFlushClose).tasks;
    assert CloseNow in Apply(p, PostClose).tasks;
  }

  lemma TaskKeepsClose(p: Pump)
    requires CloseKept(p) && p.handler.Idle? && p.tasks != []
    ensures CloseKept(RunFirst(p))
  {
    if p.open && CloseDue(p) {
      TaskKeepsDue(p);
    }
  }

  lemma WriteKeepsClose(p: Pump, i: nat)
    requires CloseKept(p) && i < |p.ops| && p.out != []
    ensures CloseKept(Completed(p, i))
  {
  }

  lemma CountKeepsClose(p: Pump)
    requires CloseKept(p)
    ensures CloseKept(Decremented(p))
    ensures !p.handler.Idle? ==> CloseKept(Continued(p))
  {
  }

  lemma OtherKeepsClose(p: Pump, a: Action)
    requires CloseKept(p) && Enabled(p, a) && !a.RunTask? && !a.CompleteWrite? && !a.Decrement? && !a.Continue?
    ensures CloseKept(Apply(p, a))
  {
    if a.PostFlushClose? {
      AskingIsDue(p);
    } else if !p.open || CloseDue(p) {
      StepKeepsDue(p, a);
    }
  }

  lemma StepKeepsClose(p: Pump, a: Action)
    requires Inv(p) && CloseKept(p) && Enabled(p, a)
    ensures CloseKept(Apply(p, a))
  {
    if a.RunTask? {
      TaskKeepsClose(p);
    } else if a.CompleteWrite? {
      WriteKeepsClose(p, a.i);
    } else if a.Decrement? || a.Continue? {
      CountKeepsClose(p);
    } else {
      OtherKeepsClose(p, a);
    }
  }

  lemma CloseNext(run: seq<Pump>, actions: seq<Action>, i: nat)
    requires IsRun(run, actions) && i < |actions| && CloseKept(run[i])
    ensures CloseKept(run[i + 1])
  {
    RunKeepsInv(run, actions, i);
    StepKeepsClose(run[i], actions[i]);
  }

  lemma {:induction false} RunKeepsClose(run: seq<Pump>, actions: seq<Action>, i: nat)
    requires IsRun(run, actions) && i <= |actions|
    ensures CloseKept(run[i])
  {
    if i > 0 {
      RunKeepsClose(run, actions, i - 1);
      CloseNext(run, actions, i - 1);
    }
  }

  lemma {:induction false} LeadsKeepsClose(p: Pump, actions: seq<Action>, q: Pump)
    requires Inv(p) && CloseKept(p) && Leads(p, actions, q)
    ensures Inv(q) && CloseKept(q) && (!p.open || CloseDue(p) ==> !q.open || CloseDue(q))
    decreases |actions|
  {
    if actions != [] {
      StepKeepsInv(p, actions[0]);
      StepKeepsClose(p, actions[0]);
      if !p.open || CloseDue(p) {
        StepKeepsDue(p, actions[0]);
      }
      LeadsKeepsClose(Apply(p, actions[0]), actions[1..], q);
    }
  }

  /** Where nothing is left to do, no close is due. */
  lemma DrainedIsClosed(q: Pump)
    requires Inv(q) && CloseKept(q) && Drained(q)
    ensures CloseDue(q) || q.firstClose.Some? ==> !q.open
  {
    if q.open {
      if !FlushReturns(q) {
        NotDrainedYet(q);
      }
      assert !Enabled(q, RunTask) && !Enabled(q, Decrement) && !Enabled(q, Continue);
    }
  }

  lemma KeptInRuns(p: Pump)
    requires Reachable(p)
    ensures Inv(p) && CloseKept(p)
  {
    var run, actions :| IsRun(run, actions) && run[|actions|] == p;
    RunKeepsInv(run, actions, |actions|);
    RunKeepsClose(run, actions, |actions|);
  }

  /** However the threads go on from any reachable state: when the sends under way and the I/O thread
      have nothing left to do, the socket is closed if a graceful close was ever asked for, if a close
      of either kind is due, or if it was closed already. */
  lemma EveryCloseHappens(p: Pump, actions: seq<Action>, q: Pump)
    requires Reachable(p) && Leads(p, actions, q) && Drained(q)
    ensures q.firstClose.Some? ==> !q.open
    ensures !p.open || CloseDue(p) ==> !q.open
  {
    KeptInRuns(p);
    LeadsKeepsClose(p, actions, q);
    DrainedIsClosed(q);
  }

  lemma {:induction false} AskedStaysDue(run: seq<Pump>, actions: seq<Action>, i: nat, n: nat)
    requires IsRun(run, actions) && i < n <= |actions| && (actions[i].PostFlushClose? || actions[i].PostClose?)
    ensures !run[n].open || CloseDue(run[n])
    decreases n
  {
    if n == i + 1 {
      AskingIsDue(run[i]);
    } else {
      AskedStaysDue(run, actions, i, n - 1);
      StepKeepsDue(run[n - 1], actions[n - 1]);
    }
  }

  /** Over whole runs: disconnectAfterFlush and disconnect both close the socket by the time nothing is
      left to do. */
  lemma AskedIsClosed(run: seq<Pump>, actions: seq<Action>, i: nat)
    requires IsRun(run, actions) && i < |actions| && (actions[i].PostFlushClose? || actions[i].PostClose?)
    requires Drained(run[|actions|])
    ensures !run[|actions|].open
  {
    RunKeepsInv(run, actions, |actions|);
    RunKeepsClose(run, actions, |actions|);
    AskedStaysDue(run, actions, i, |actions|);
    DrainedIsClosed(run[|actions|]);
  }

  /** The calls that close, and the errors. */
  predicate Closes(a: Action) {
    a.PostFlushClose? || a.PostClose? || a.FailWrite? || a.PeerError?
  }

  /** And nothing else closes it: a socket is closed only if one of the two was called or it broke. */
  lemma {:induction false} OpenUnlessAsked(run: seq<Pump>, actions: seq<Action>, n: nat)
    requires IsRun(run, actions) && n <= |actions|
    requires forall i :: 0 <= i < n ==> !Closes(actions[i])
    ensures run[n].open && NoCloseAsked(run[n])
  {
    if n > 0 {
      OpenUnlessAsked(run, actions, n - 1);
      StaysOpen(run[n - 1], actions[n - 1]);
    }
  }

  lemma StaysOpen(p: Pump, a: Action)
    requires Enabled(p, a) && p.open && NoCloseAsked(p)
    requires !Closes(a)
    ensures Apply(p, a).open && NoCloseAsked(Apply(p, a))
  {
    if a.RunTask? {
      assert p.tasks[0] in p.tasks;
    }
  }

  /** A thread asleep in waitForOutgoingQueueEmpty is woken for no other reason than that the count of
      pending writes has reached zero, or spuriously. */
  lemma WokenAtZero(p: Pump, a: Action, t: nat)
    requires Enabled(p, a) && t in p.sleepers && t !in Apply(p, a).sleepers
    ensures a == Wake(t) || (a == Decrement && Apply(p, a).pendingWrites == 0)
  {
    if a.RunTask? {
      TaskKeepsSleepers(p);
    } else if a.CompleteWrite? {
      WriteKeepsSleepers(p, a.i);
    }
  }

  lemma TaskKeepsSleepers(p: Pump)
    requires p.tasks != []
    ensures RunFirst(p).sleepers == p.sleepers
  {
  }

  lemma WriteKeepsSleepers(p: Pump, i: nat)
    requires i < |p.ops|
    ensures Completed(p, i).sleepers == p.sleepers
  {
  }
}
