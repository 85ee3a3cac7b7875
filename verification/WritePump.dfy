/** The write side of a connection as a state machine over the steps of its threads.
    User threads send, flush and close; one I/O thread runs posted tasks and write completions. */
module WritePump {
  import opened Bytes
  import opened NetMessage
  import opened Framing

  datatype Option<+T> = None | Some(value: T)

  /** A task posted to the I/O thread. */
  datatype Task = Push(msg: Message) | FlushClose | CloseNow

  /** An asynchronous write in flight: of a header or a body, with the bytes still to transmit. */
  datatype WriteOp = WriteOp(ofBody: bool, left: seq<byte>)

  /** Where the I/O thread stands in a write completion handler: the pop, the decrement of the
      pending count and the start of the next write are separate steps. */
  datatype Handler = Idle | JustPopped | JustCounted

  datatype Pump = Pump(
    validated: bool,
    open: bool,
    closeAfterFlush: bool,
    pendingWrites: nat,
    tasks: seq<Task>,
    out: seq<Message>,
    ops: seq<WriteOp>,
    handler: Handler,
    checked: multiset<Message>,   // calls of send past the two tests, before the increment
    counted: multiset<Message>,   // calls of send past the increment, before the post
    sleepers: set<nat>,           // threads asleep in waitForOutgoingQueueEmpty
    // what happened so far
    wire: seq<byte>,
    hello: seq<byte>,
    front: seq<byte>,             // the bytes on the wire of the frame being written
    written: seq<Message>,
    posted: seq<Message>,         // messages whose send returned true, in posting order
    failed: bool,                 // the socket broke, or was closed without a flush
    firstClose: Option<nat>)      // how many messages were posted before disconnectAfterFlush

  const START := Pump(false, true, false, 0, [], [], [], Idle, multiset{}, multiset{}, {},
                      [], [], [], [], [], false, None)

  datatype Action =
    | Validate(hello: seq<byte>)      // the handshake bytes are out and the peer is accepted
    | CheckSend(msg: Message)         // send: both tests pass
    | CountSend(msg: Message)         // send: ++m_pending_writes
    | PostSend(msg: Message)          // send: post the task and return true
    | PostFlushClose                  // disconnectAfterFlush
    | PostClose                       // disconnect
    | RunTask                         // the I/O thread runs the first posted task
    | Transmit(i: nat, n: nat)        // the socket takes n bytes of write i
    | CompleteWrite(i: nat)           // write i has transmitted everything: its handler starts
    | Decrement                       // the handler decrements and notifies
    | Continue                        // the handler starts the next write, or closes
    | FailWrite(i: nat)               // write i completes with an error
    | PeerError                       // a read failed: the socket is closed
    | Wait(thread: nat)               // waitForOutgoingQueueEmpty tests its predicate
    | Wake(thread: nat)               // a spurious wake-up

  predicate Enabled(p: Pump, a: Action) {
    match a
    case Validate(hello) => !p.validated && |hello| == HANDSHAKE
    case CheckSend(m) => p.validated && p.open
    case CountSend(m) => m in p.checked
    case PostSend(m) => m in p.counted
    case PostFlushClose => true
    case PostClose => true
    case RunTask => p.handler.Idle? && p.tasks != []
    case Transmit(i, n) => p.open && i < |p.ops| && 0 < n <= |p.ops[i].left|
    case CompleteWrite(i) => p.handler.Idle? && i < |p.ops| && p.ops[i].left == []
    case Decrement => p.handler.JustPopped?
    case Continue => p.handler.JustCounted?
    case FailWrite(i) => p.handler.Idle? && i < |p.ops|
    case PeerError => p.handler.Idle?
    case Wait(t) => t !in p.sleepers
    case Wake(t) => t in p.sleepers
  }

  /** waitForOutgoingQueueEmpty returns. */
  predicate FlushReturns(p: Pump) {
    p.pendingWrites == 0 && p.out == []
  }

  function StartHeader(p: Pump): Pump
    requires p.out != []
  {
    p.(ops := p.ops + [WriteOp(false, Header(p.out[0]))])
  }

  function PopFront(p: Pump): Pump
    requires p.out != []
  {
    p.(out := p.out[1..], handler := JustPopped, written := p.written + [p.out[0]], front := [])
  }

  function RunFirst(p: Pump): Pump
    requires p.tasks != []
  {
    var rest := p.(tasks := p.tasks[1..]);
    match p.tasks[0]
    case Push(m) =>
      var queued := rest.(out := p.out + [m]);
      if p.out == [] then StartHeader(queued) else queued
    case FlushClose =>
      if p.out == [] then rest.(open := false) else rest.(closeAfterFlush := true)
    case CloseNow => rest.(open := false, failed := true)
  }

  function Without(ops: seq<WriteOp>, i: nat): seq<WriteOp>
    requires i < |ops|
  {
    ops[..i] + ops[i + 1..]
  }

  /** The handler of a write that went through, up to the pop. Reading the front of an empty queue
      would be out of bounds; FrontExists excludes it. */
  function Completed(p: Pump, i: nat): Pump
    requires i < |p.ops|
  {
    var rest := p.(ops := Without(p.ops, i));
    if p.out == [] then rest
    else if !p.ops[i].ofBody && |p.out[0].body| > 0 then
      rest.(ops := rest.ops + [WriteOp(true, p.out[0].body)])
    else PopFront(rest)
  }

  function Decremented(p: Pump): Pump {
    var pending := if p.pendingWrites > 0 then p.pendingWrites - 1 else 0;
    p.(pendingWrites := pending, handler := JustCounted, sleepers := if pending == 0 then {} else p.sleepers)
  }

  function Continued(p: Pump): Pump {
    var idle := p.(handler := Idle);
    if p.out != [] then StartHeader(idle)
    else if p.closeAfterFlush then idle.(open := false)
    else idle
  }

  function Apply(p: Pump, a: Action): Pump
    requires Enabled(p, a)
  {
    match a
    case Validate(hello) => p.(validated := true, hello := hello, wire := p.wire + hello)
    case CheckSend(m) => p.(checked := p.checked + multiset{m})
    case CountSend(m) =>
      p.(checked := p.checked - multiset{m}, counted := p.counted + multiset{m},
         pendingWrites := p.pendingWrites + 1)
    case PostSend(m) =>
      p.(counted := p.counted - multiset{m}, tasks := p.tasks + [Push(m)], posted := p.posted + [m])
    case PostFlushClose =>
      p.(tasks := p.tasks + [FlushClose],
         firstClose := if p.firstClose.None? then Some(|p.posted|) else p.firstClose)
    case PostClose => p.(tasks := p.tasks + [CloseNow])
    case RunTask => RunFirst(p)
    case Transmit(i, n) =>
      var bytes := p.ops[i].left[..n];
      p.(ops := p.ops[i := p.ops[i].(left := p.ops[i].left[n..])],
         wire := p.wire + bytes, front := p.front + bytes)
    case CompleteWrite(i) => Completed(p, i)
    case Decrement => Decremented(p)
    case Continue => Continued(p)
    case FailWrite(i) => p.(ops := Without(p.ops, i), open := false, failed := true)
    case PeerError => p.(open := false, failed := true)
    case Wait(t) => if FlushReturns(p) then p else p.(sleepers := p.sleepers + {t})
    case Wake(t) => p.(sleepers := p.sleepers - {t})
  }

  // ---------- runs ----------

  ghost predicate IsRun(run: seq<Pump>, actions: seq<Action>) {
    && |run| == |actions| + 1
    && run[0] == START
    && forall i :: 0 <= i < |actions| ==> Enabled(run[i], actions[i]) && run[i + 1] == Apply(run[i], actions[i])
  }

  ghost predicate Reachable(p: Pump) {
    exists run, actions :: IsRun(run, actions) && run[|actions|] == p
  }

  // ---------- the invariant ----------

  function Pushed(tasks: seq<Task>): seq<Message> {
    if tasks == [] then []
    else if tasks[0].Push? then [tasks[0].msg] + Pushed(tasks[1..])
    else Pushed(tasks[1..])
  }

  /** Every posted FlushClose has at least the promised number of messages before it. */
  predicate CloseMarks(tasks: seq<Task>, before: nat, promised: Option<nat>) {
    if tasks == [] then true
    else if tasks[0].Push? then CloseMarks(tasks[1..], before + 1, promised)
    else (tasks[0].FlushClose? ==> promised.Some? && promised.value <= before)
         && CloseMarks(tasks[1..], before, promised)
  }

  /** m_pending_writes is posted-not-run plus queued plus popped-not-yet-decremented,
      plus the calls of send between their increment and their post. */
  predicate Counting(pending: nat, counted: multiset<Message>, tasks: seq<Task>, out: seq<Message>, handler: Handler) {
    pending == |counted| + |Pushed(tasks)| + |out| + (if handler.JustPopped? then 1 else 0)
  }

  /** The writes in flight: at most one, and it is of the front message. */
  predicate OneWrite(out: seq<Message>, ops: seq<WriteOp>, handler: Handler, front: seq<byte>, failed: bool) {
    && |ops| <= 1
    && (ops != [] ==> out != [] && handler.Idle?)
    && (ops == [] && handler.Idle? && out != [] ==> failed)
    && (out == [] || !handler.Idle? ==> front == [])
    && (out != [] ==> front <= Frame(out[0]))
    && (ops != [] ==> front + ops[0].left == Goal(out[0], ops[0].ofBody))
    && (ops != [] && ops[0].ofBody ==> |out[0].body| > 0)
  }

  /** What of a message is on the wire once a write of its header or of its body is done. */
  function Goal(m: Message, ofBody: bool): seq<byte> {
    if ofBody then Frame(m) else Header(m)
  }

  /** The wire is the handshake, the written frames and part of the front frame. */
  predicate OnWire(wire: seq<byte>, hello: seq<byte>, written: seq<Message>, front: seq<byte>) {
    wire == hello + Frames(written) + front
  }

  predicate InOrder(posted: seq<Message>, written: seq<Message>, out: seq<Message>, tasks: seq<Task>) {
    posted == written + out + Pushed(tasks)
  }

  predicate Greeted(p: Pump) {
    if p.validated then |p.hello| == HANDSHAKE
    else p.hello == [] && p.posted == [] && p.checked == multiset{} && p.counted == multiset{}
  }

  predicate Closing(p: Pump) {
    && CloseMarks(p.tasks, |p.written| + |p.out|, p.firstClose)
    && (p.closeAfterFlush ==> p.firstClose.Some? && p.firstClose.value <= |p.written| + |p.out|)
    && (!p.open && !p.failed ==> p.firstClose.Some? && p.firstClose.value <= |p.written|)
    && (p.firstClose.Some? ==> p.firstClose.value <= |p.posted|)
  }

  predicate Inv(p: Pump) {
    && Counting(p.pendingWrites, p.counted, p.tasks, p.out, p.handler)
    && OneWrite(p.out, p.ops, p.handler, p.front, p.failed)
    && OnWire(p.wire, p.hello, p.written, p.front)
    && InOrder(p.posted, p.written, p.out, p.tasks)
    && Greeted(p)
    && Closing(p)
    && (p.sleepers != {} ==> p.pendingWrites > 0)
  }

  lemma {:induction false} PushedAppend(a: seq<Task>, b: seq<Task>)
    ensures Pushed(a + b) == Pushed(a) + Pushed(b)
  {
    if a == [] {
      assert a + b == b;
    } else {
      PushedAppend(a[1..], b);
      assert (a + b)[1..] == a[1..] + b;
    }
  }

  lemma {:induction false} CloseMarksAppend(tasks: seq<Task>, t: Task, before: nat, promised: Option<nat>)
    requires CloseMarks(tasks, before, promised)
    requires t.FlushClose? ==> promised.Some? && promised.value <= before + |Pushed(tasks)|
    ensures CloseMarks(tasks + [t], before, promised)
  {
    if tasks != [] {
      CloseMarksAppend(tasks[1..], t, if tasks[0].Push? then before + 1 else before, promised);
      assert (tasks + [t])[1..] == tasks[1..] + [t];
    } else {
      assert CloseMarks([], before, promised) && (tasks + [t])[1..] == [];
    }
  }

  lemma {:induction false} CloseMarksPromised(tasks: seq<Task>, before: nat, n: nat)
    requires CloseMarks(tasks, before, None)
    ensures CloseMarks(tasks, before, Some(n))
  {
    if tasks != [] {
      CloseMarksPromised(tasks[1..], if tasks[0].Push? then before + 1 else before, n);
    }
  }

  // ---------- every step keeps it ----------

  lemma SendStep(p: Pump, a: Action)
    requires Inv(p) && Enabled(p, a) && (a.CheckSend? || a.CountSend?)
    ensures Inv(Apply(p, a))
  {
  }

  lemma ValidateStep(p: Pump, a: Action)
    requires Inv(p) && Enabled(p, a) && a.Validate?
    ensures Inv(Apply(p, a))
  {
    assert p.written == [] && Frames([]) == [];
    assert p.wire == p.hello + [] + p.front && p.front == [];
    assert p.wire + a.hello == a.hello + [] + [];
  }

  lemma PostTask(tasks: seq<Task>, t: Task, before: nat, promised: Option<nat>)
    requires CloseMarks(tasks, before, promised)
    requires t.FlushClose? ==> promised.Some? && promised.value <= before + |Pushed(tasks)|
    ensures CloseMarks(tasks + [t], before, promised)
    ensures Pushed(tasks + [t]) == Pushed(tasks) + (if t.Push? then [t.msg] else [])
  {
    PushedAppend(tasks, [t]);
    assert [t][1..] == [];
    CloseMarksAppend(tasks, t, before, promised);
  }

  lemma PostSendStep(p: Pump, a: Action)
    requires Inv(p) && Enabled(p, a) && a.PostSend?
    ensures Inv(Apply(p, a))
  {
    PostTask(p.tasks, Push(a.msg), |p.written| + |p.out|, p.firstClose);
    assert p.posted + [a.msg] == p.written + p.out + (Pushed(p.tasks) + [a.msg]);
  }

  /** Only the closings among what was posted, and when the first was asked for, have changed. */
  lemma TasksChange(p: Pump, tasks: seq<Task>, first: Option<nat>)
    requires Inv(p) && Pushed(tasks) == Pushed(p.tasks)
    requires CloseMarks(tasks, |p.written| + |p.out|, first)
    requires first == p.firstClose || (p.firstClose.None? && first == Some(|p.posted|))
    ensures Inv(p.(tasks := tasks, firstClose := first))
  {
    assert Closing(p.(tasks := tasks, firstClose := first));
  }

  lemma PostCloseStep(p: Pump)
    requires Inv(p)
    ensures Inv(p.(tasks := p.tasks + [CloseNow]))
  {
    PostTask(p.tasks, CloseNow, |p.written| + |p.out|, p.firstClose);
    assert Pushed(p.tasks) + [] == Pushed(p.tasks);
    TasksChange(p, p.tasks + [CloseNow], p.firstClose);
  }

  lemma FlushClosePosted(tasks: seq<Task>, before: nat, promised: Option<nat>, n: nat)
    requires CloseMarks(tasks, before, promised)
    requires n == before + |Pushed(tasks)| && (promised.Some? ==> promised.value <= n)
    ensures CloseMarks(tasks + [FlushClose], before, if promised.None? then Some(n) else promised)
    ensures Pushed(tasks + [FlushClose]) == Pushed(tasks)
  {
    if promised.None? {
      CloseMarksPromised(tasks, before, n);
    }
    PostTask(tasks, FlushClose, before, if promised.None? then Some(n) else promised);
  }

  lemma PostedCount(p: Pump)
    requires Inv(p)
    ensures |p.posted| == |p.written| + |p.out| + |Pushed(p.tasks)|
  {
  }

  lemma PostFlushCloseStep(p: Pump)
    requires Inv(p)
    ensures Inv(Apply(p, PostFlushClose))
  {
    PostedCount(p);
    FlushClosePosted(p.tasks, |p.written| + |p.out|, p.firstClose, |p.posted|);
    TasksChange(p, p.tasks + [FlushClose], if p.firstClose.None? then Some(|p.posted|) else p.firstClose);
  }

  lemma PushOrder(posted: seq<Message>, written: seq<Message>, out: seq<Message>, tasks: seq<Task>)
    requires InOrder(posted, written, out, tasks) && tasks != [] && tasks[0].Push?
    ensures InOrder(posted, written, out + [tasks[0].msg], tasks[1..])
    ensures |Pushed(tasks)| == 1 + |Pushed(tasks[1..])|
  {
    var m, rest := tasks[0].msg, Pushed(tasks[1..]);
    assert written + out + ([m] + rest) == written + (out + [m]) + rest;
  }

  lemma PushWrite(out: seq<Message>, m: Message, ops: seq<WriteOp>, front: seq<byte>, failed: bool)
    requires OneWrite(out, ops, Idle, front, failed)
    ensures OneWrite(out + [m], if out == [] then ops + [WriteOp(false, Header((out + [m])[0]))] else ops,
                     Idle, front, failed)
  {
    assert (out + [m])[0] == if out == [] then m else out[0];
    if out == [] {
      assert [] + Header(m) == Header(m);
    }
  }

  lemma PushClosing(p: Pump, q: Pump)
    requires Closing(p) && p.tasks != [] && p.tasks[0].Push?
    requires q.tasks == p.tasks[1..] && |q.out| == |p.out| + 1
    requires q.written == p.written && q.posted == p.posted && q.firstClose == p.firstClose
    requires q.open == p.open && q.failed == p.failed && q.closeAfterFlush == p.closeAfterFlush
    ensures Closing(q)
  {
  }

  lemma PushTaskStep(p: Pump)
    requires Inv(p) && p.handler.Idle? && p.tasks != [] && p.tasks[0].Push?
    ensures Inv(RunFirst(p))
  {
    PushOrder(p.posted, p.written, p.out, p.tasks);
    PushWrite(p.out, p.tasks[0].msg, p.ops, p.front, p.failed);
    PushClosing(p, RunFirst(p));
  }

  /** A close task leaves the queue; what it then does to the socket is judged below. */
  lemma TaskGone(p: Pump)
    requires Inv(p) && p.tasks != [] && !p.tasks[0].Push?
    ensures Inv(p.(tasks := p.tasks[1..]))
    ensures p.tasks[0].FlushClose? ==> p.firstClose.Some? && p.firstClose.value <= |p.written| + |p.out|
  {
    TasksChange(p, p.tasks[1..], p.firstClose);
  }

  lemma FlushCloseTaskStep(p: Pump)
    requires Inv(p)
    requires p.firstClose.Some? && p.firstClose.value <= |p.written| + |p.out|
    ensures p.out == [] ==> Inv(p.(open := false))
    ensures Inv(p.(closeAfterFlush := true))
  {
  }

  lemma BreakStep(p: Pump)
    requires Inv(p)
    ensures Inv(p.(open := false, failed := true))
    ensures Inv(p.(ops := [], open := false, failed := true))
  {
  }

  lemma SleepStep(p: Pump, sleepers: set<nat>)
    requires Inv(p) && (sleepers != {} ==> p.pendingWrites > 0)
    ensures Inv(p.(sleepers := sleepers))
  {
  }

  lemma CloseTaskStep(p: Pump)
    requires Inv(p) && p.tasks != [] && !p.tasks[0].Push?
    ensures Inv(RunFirst(p))
  {
    TaskGone(p);
    var rest := p.(tasks := p.tasks[1..]);
    if p.tasks[0].FlushClose? {
      FlushCloseTaskStep(rest);
    } else {
      BreakStep(rest);
    }
  }

  lemma TaskStep(p: Pump)
    requires Inv(p) && p.handler.Idle? && p.tasks != []
    ensures Inv(RunFirst(p))
  {
    if p.tasks[0].Push? {
      PushTaskStep(p);
    } else {
      CloseTaskStep(p);
    }
  }

  lemma DecrementStep(p: Pump)
    requires Inv(p) && p.handler.JustPopped?
    ensures Inv(Decremented(p))
  {
  }

  lemma TransmitStep(p: Pump, i: nat, n: nat)
    requires Inv(p) && Enabled(p, Transmit(i, n))
    ensures Inv(Apply(p, Transmit(i, n)))
  {
    var left := p.ops[0].left;
    assert left == left[..n] + left[n..];
    Assoc(p.front, left[..n], left[n..]);
    Assoc(p.hello + Frames(p.written), p.front, left[..n]);
  }

  lemma PopKeepsOrder(written: seq<Message>, out: seq<Message>, rest: seq<Message>)
    requires out != []
    ensures written + out + rest == (written + [out[0]]) + out[1..] + rest
    ensures Frames(written + [out[0]]) == Frames(written) + Frame(out[0])
  {
    FramesAppend(written, [out[0]]);
    assert Frames([out[0]]) == Frame(out[0]) + Frames([]);
  }

  lemma PopStep(p: Pump)
    requires Inv(p) && p.out != [] && p.handler.Idle? && |p.ops| == 1 && p.front == Frame(p.out[0])
    ensures Inv(PopFront(p.(ops := [])))
  {
    PopKeepsOrder(p.written, p.out, Pushed(p.tasks));
    PopKeepsWire(p.wire, p.hello, p.written, p.out[0]);
    PopKeepsClosing(p);
  }

  lemma PopKeepsWire(wire: seq<byte>, hello: seq<byte>, written: seq<Message>, m: Message)
    requires OnWire(wire, hello, written, Frame(m))
    ensures OnWire(wire, hello, written + [m], [])
  {
    PopKeepsOrder(written, [m], []);
    Assoc(hello, Frames(written), Frame(m));
    assert wire == wire + [];
  }

  lemma PopKeepsClosing(p: Pump)
    requires Closing(p) && p.out != []
    ensures Closing(PopFront(p.(ops := [])))
  {
    assert |PopFront(p.(ops := [])).written| + |p.out[1..]| == |p.written| + |p.out|;
  }

  lemma CompleteStep(p: Pump, i: nat)
    requires Inv(p) && p.handler.Idle? && i < |p.ops| && p.ops[i].left == []
    ensures Inv(Completed(p, i))
  {
    var m := p.out[0];
    assert Without(p.ops, i) == [];
    assert p.front + [] == p.front;
    if !p.ops[0].ofBody && |m.body| > 0 {
      BodyStep(p, i);
    } else {
      assert |m.body| == 0 ==> Frame(m) == Header(m);
      PopStep(p);
    }
  }

  lemma BodyStep(p: Pump, i: nat)
    requires Inv(p) && p.handler.Idle? && i < |p.ops| && p.ops[i].left == []
    requires p.out != [] && !p.ops[0].ofBody && |p.out[0].body| > 0
    ensures Inv(Completed(p, i))
  {
    var m := p.out[0];
    assert Without(p.ops, i) == [];
    assert p.front == p.front + [] == Header(m);
    assert [] + [WriteOp(true, m.body)] == [WriteOp(true, m.body)];
  }

  lemma HeaderStarts(out: seq<Message>, failed: bool)
    requires out != []
    ensures OneWrite(out, [] + [WriteOp(false, Header(out[0]))], Idle, [], failed)
  {
    assert [] + Header(out[0]) == Header(out[0]);
  }

  lemma StartStep(p: Pump)
    requires Inv(p) && p.handler.JustCounted? && p.out != []
    ensures Inv(StartHeader(p.(handler := Idle)))
  {
    HeaderStarts(p.out, p.failed);
    assert p.ops == [] && p.front == [];
  }

  lemma RestStep(p: Pump)
    requires Inv(p) && p.handler.JustCounted? && p.out == []
    ensures Inv(p.(handler := Idle))
    ensures p.closeAfterFlush ==> Inv(p.(handler := Idle, open := false))
  {
  }

  lemma ContinueStep(p: Pump)
    requires Inv(p) && p.handler.JustCounted?
    ensures Inv(Continued(p))
  {
    if p.out != [] {
      StartStep(p);
    } else {
      RestStep(p);
    }
  }

  lemma WaitStep(p: Pump, a: Action)
    requires Inv(p) && Enabled(p, a) && (a.Wait? || a.Wake?)
    ensures Inv(Apply(p, a))
  {
    assert !FlushReturns(p) ==> p.pendingWrites > 0;
    SleepStep(p, Apply(p, a).sleepers);
  }

  lemma UserStepKeepsInv(p: Pump, a: Action)
    requires Inv(p) && Enabled(p, a)
    requires a.CheckSend? || a.CountSend? || a.PostSend? || a.Wait? || a.Wake?
    ensures Inv(Apply(p, a))
  {
    match a
    case CheckSend(_) => SendStep(p, a);
    case CountSend(_) => SendStep(p, a);
    case PostSend(_) => PostSendStep(p, a);
    case Wait(_) => WaitStep(p, a);
    case Wake(_) => WaitStep(p, a);
  }

  lemma FailStep(p: Pump, a: Action)
    requires Inv(p) && Enabled(p, a) && (a.FailWrite? || a.PeerError?)
    ensures Inv(Apply(p, a))
  {
    if a.FailWrite? {
      assert Without(p.ops, a.i) == [];
    }
    BreakStep(p);
  }

  lemma WriteStepKeepsInv(p: Pump, a: Action)
    requires Inv(p) && Enabled(p, a) && (a.Transmit? || a.CompleteWrite? || a.Decrement? || a.Continue?)
    ensures Inv(Apply(p, a))
  {
    match a
    case Transmit(i, n) => TransmitStep(p, i, n);
    case CompleteWrite(i) => CompleteStep(p, i);
    case Decrement => DecrementStep(p);
    case Continue => ContinueStep(p);
  }

  lemma StepKeepsInv(p: Pump, a: Action)
    requires Inv(p) && Enabled(p, a)
    ensures Inv(Apply(p, a))
  {
    match a
    case Transmit(_, _) => WriteStepKeepsInv(p, a);
    case CompleteWrite(_) => WriteStepKeepsInv(p, a);
    case Decrement => WriteStepKeepsInv(p, a);
    case Continue => WriteStepKeepsInv(p, a);
    case Validate(_) => ValidateStep(p, a);
    case RunTask => TaskStep(p);
    case FailWrite(_) => FailStep(p, a);
    case PeerError => FailStep(p, a);
    case PostFlushClose => PostFlushCloseStep(p);
    case PostClose => PostCloseStep(p);
    case _ => UserStepKeepsInv(p, a);
  }

  lemma {:induction false} RunKeepsInv(run: seq<Pump>, actions: seq<Action>, i: nat)
    requires IsRun(run, actions) && i <= |actions|
    ensures Inv(run[i])
  {
    if i > 0 {
      RunKeepsInv(run, actions, i - 1);
      StepKeepsInv(run[i - 1], actions[i - 1]);
    } else {
      assert Frames([]) == [] && START.hello + Frames([]) + START.front == [];
    }
  }

  lemma ReachableInv(p: Pump)
    requires Reachable(p)
    ensures Inv(p)
  {
    var run, actions :| IsRun(run, actions) && run[|actions|] == p;
    RunKeepsInv(run, actions, |actions|);
  }

  // ---------- what the code promises ----------

  /** On a connection that has not broken, a write is in flight exactly when the out queue is
      non-empty (outside a completion handler), never two, and the wire carries the frames in
      posting order. The guard of the decrement never matters. */
  lemma PumpRefinement(p: Pump)
    requires Reachable(p)
    ensures |p.ops| <= 1
    ensures !p.failed && p.handler.Idle? ==> (|p.ops| == 1 <==> p.out != [])
    ensures p.handler.JustPopped? ==> p.pendingWrites > 0
    ensures p.pendingWrites == |p.counted| + |Pushed(p.tasks)| + |p.out| + (if p.handler.JustPopped? then 1 else 0)
    ensures p.posted == p.written + p.out + Pushed(p.tasks)
    ensures p.hello + Frames(p.written) <= p.wire <= p.hello + Frames(p.posted)
    ensures p.out != [] ==> p.wire <= p.hello + Frames(p.written) + Frame(p.out[0])
    ensures p.out == [] ==> p.wire == p.hello + Frames(p.written)
  {
    ReachableInv(p);
    var rest := p.out + Pushed(p.tasks);
    Assoc(p.written, p.out, Pushed(p.tasks));
    FramesAppend(p.written, rest);
    Assoc(p.hello, Frames(p.written), Frames(rest));
    if p.out != [] {
      assert rest[0] == p.out[0];
      assert p.front <= Frame(rest[0]) <= Frames(rest);
    }
  }

  /** No completion handler looks at the front of an empty queue. */
  lemma FrontExists(p: Pump, i: nat)
    requires Reachable(p) && Enabled(p, CompleteWrite(i))
    ensures p.out != []
    ensures p.ops[i].ofBody ==> p.front == Frame(p.out[0])
    ensures !p.ops[i].ofBody ==> p.front == Header(p.out[0])
  {
    ReachableInv(p);
    assert p.front + [] == p.front;
  }

  /** When waitForOutgoingQueueEmpty returns, every message whose send had succeeded is on the
      wire in full, with or without errors. */
  lemma FlushSafety(p: Pump)
    requires Reachable(p) && FlushReturns(p)
    ensures p.wire == p.hello + Frames(p.posted)
    ensures p.counted == multiset{} && Pushed(p.tasks) == []
  {
    ReachableInv(p);
    assert |p.counted| == 0;
    assert p.posted == p.written + [] + [];
    assert p.posted == p.written;
    assert p.wire == p.hello + Frames(p.written) + [];
  }

  /** No wake-up is lost: a thread sleeps in waitForOutgoingQueueEmpty only while its predicate
      is false, in every reachable state. */
  lemma NoLostWakeup(p: Pump)
    requires Reachable(p) && p.sleepers != {}
    ensures !FlushReturns(p) && p.pendingWrites > 0
  {
    ReachableInv(p);
  }

  /** On a connection that does not break, the socket is closed only after every message posted
      before the first disconnectAfterFlush is on the wire in full. */
  lemma GracefulClose(p: Pump)
    requires Reachable(p) && !p.open && !p.failed
    ensures p.firstClose.Some? && p.firstClose.value <= |p.posted|
    ensures p.hello + Frames(p.posted[..p.firstClose.value]) <= p.wire
  {
    ReachableInv(p);
    var n := p.firstClose.value;
    assert p.posted[..n] == p.written[..n];
    assert p.written == p.written[..n] + p.written[n..];
    FramesAppend(p.written[..n], p.written[n..]);
    assert p.hello + Frames(p.written[..n]) <= p.hello + Frames(p.written);
  }
}
