/** The queue of tsqueue.hpp. Every method holds the mutex, so each is one atomic step. */
module TsQueue {

  class TSQueue<T> {
    var deq: seq<T>

    constructor ()
      ensures deq == []
    {
      deq := [];
    }

    method Empty() returns (b: bool)
      ensures b == (deq == [])
    {
      b := |deq| == 0;
    }

    method Size() returns (n: nat)
      ensures n == |deq|
    {
      n := |deq|;
    }

    method Clear()
      modifies this
      ensures deq == []
    {
      deq := [];
    }

    method PushBack(item: T)
      modifies this
      ensures deq == old(deq) + [item]
    {
      deq := deq + [item];
    }

    method PushFront(item: T)
      modifies this
      ensures deq == [item] + old(deq)
    {
      deq := [item] + deq;
    }

    method PopFront() returns (t: T)
      requires deq != []
      modifies this
      ensures old(deq) == [t] + deq
    {
      t := deq[0];
      deq := deq[1..];
    }

    method PopBack() returns (t: T)
      requires deq != []
      modifies this
      ensures old(deq) == deq + [t]
    {
      t := deq[|deq| - 1];
      deq := deq[..|deq| - 1];
    }
  }

  // ---------- producers and a consumer that checks `empty` and then pops ----------

  /** armed: how many consumers have seen the queue non-empty and not popped yet. */
  datatype Shared<T> = Shared(contents: seq<T>, pushed: seq<T>, popped: seq<T>, armed: nat)

  datatype Step<T> = Push(item: T) | Check | Pop

  /** With one consumer a check is not followed by another check before its pop. */
  predicate Allowed<T>(consumers: nat, s: Shared<T>, step: Step<T>) {
    match step
    case Push(_) => true
    case Check => s.contents != [] && s.armed < consumers
    case Pop => s.armed > 0
  }

  /** A pop of an empty queue is undefined; it is shown as no pop. */
  function After<T>(s: Shared<T>, step: Step<T>): Shared<T> {
    match step
    case Push(x) => s.(contents := s.contents + [x], pushed := s.pushed + [x])
    case Check => s.(armed := s.armed + 1)
    case Pop =>
      if s.contents == [] || s.armed == 0 then s
      else s.(contents := s.contents[1..], popped := s.popped + [s.contents[0]], armed := s.armed - 1)
  }

  ghost predicate IsRun<T(!new)>(consumers: nat, run: seq<Shared<T>>, steps: seq<Step<T>>) {
    && |run| == |steps| + 1
    && run[0] == Shared([], [], [], 0)
    && forall i :: 0 <= i < |steps| ==> Allowed(consumers, run[i], steps[i]) && run[i + 1] == After(run[i], steps[i])
  }

  predicate Underflow<T>(s: Shared<T>, step: Step<T>) {
    step.Pop? && s.contents == []
  }

  ghost predicate Safe<T(!new)>(run: seq<Shared<T>>, steps: seq<Step<T>>)
    requires |run| == |steps| + 1
  {
    forall i :: 0 <= i < |steps| ==> !Underflow(run[i], steps[i])
  }

  /** First in, first out, for any number of producers and consumers. */
  lemma {:induction false} FirstInFirstOut<T(!new)>(consumers: nat, run: seq<Shared<T>>, steps: seq<Step<T>>, i: nat)
    requires IsRun(consumers, run, steps) && i <= |steps|
    ensures run[i].popped + run[i].contents == run[i].pushed
  {
    if i > 0 {
      FirstInFirstOut(consumers, run, steps, i - 1);
      var s := run[i - 1];
      match steps[i - 1]
      case Push(x) => assert s.popped + (s.contents + [x]) == s.pushed + [x];
      case Check =>
      case Pop =>
        if s.contents != [] {
          assert (s.popped + [s.contents[0]]) + s.contents[1..] == s.popped + s.contents;
        }
    }
  }

  lemma {:induction false} OneConsumerNeverUnderflows<T(!new)>(run: seq<Shared<T>>, steps: seq<Step<T>>, i: nat)
    requires IsRun(1, run, steps) && i <= |steps|
    ensures run[i].armed <= 1 && (run[i].armed == 1 ==> run[i].contents != [])
  {
    if i > 0 {
      OneConsumerNeverUnderflows(run, steps, i - 1);
    }
  }

  /** Checking `empty` and then popping is safe in every run exactly with at most one consumer. */
  lemma SafeIffOneConsumer(consumers: nat)
    ensures consumers <= 1 <==>
            forall run: seq<Shared<int>>, steps :: IsRun(consumers, run, steps) ==> Safe(run, steps)
  {
    if consumers <= 1 {
      forall run: seq<Shared<int>>, steps | IsRun(consumers, run, steps)
        ensures Safe(run, steps)
      {
        forall i | 0 <= i < |steps| ensures !Underflow(run[i], steps[i]) {
          assert IsRun(1, run, steps) by {
            forall k | 0 <= k < |steps| ensures Allowed(1, run[k], steps[k]) {}
          }
          OneConsumerNeverUnderflows(run, steps, i);
        }
      }
    } else {
      var s0: Shared<int> := Shared([], [], [], 0);
      var steps := [Push(7), Check, Check, Pop, Pop];
      var s1 := After(s0, steps[0]);
      var s2 := After(s1, steps[1]);
      var s3 := After(s2, steps[2]);
      var s4 := After(s3, steps[3]);
      var s5 := After(s4, steps[4]);
      var run := [s0, s1, s2, s3, s4, s5];
      assert s4.contents == [] && s4.armed == 1;
      assert Underflow(run[4], steps[4]);
      assert IsRun(consumers, run, steps);
      assert !Safe(run, steps);
    }
  }
}
