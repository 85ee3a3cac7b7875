/** The connection object of net_connection.hpp. Each handler runs on one thread without a
    break here; WritePump interleaves their steps. */
module Connections {
  import opened Bytes
  import opened NetMessage
  import opened Framing
  import opened WritePump

  /** The three steps of a send that passes its tests. */
  function Sent(p: Pump, m: Message): Pump
    requires Enabled(p, CheckSend(m))
  {
    var checked := Apply(p, CheckSend(m));
    var counted := Apply(checked, CountSend(m));
    Apply(counted, PostSend(m))
  }

  /** The steps of a completion handler that has written a whole frame. */
  function FrameDone(p: Pump): Pump
    requires p.ops != [] && p.out != []
  {
    Continued(Decremented(Completed(p, 0)))
  }

  lemma FrameDoneIsSteps(p: Pump)
    requires Enabled(p, CompleteWrite(0)) && p.out != []
    requires p.ops[0].ofBody || |p.out[0].body| == 0
    ensures Enabled(Apply(p, CompleteWrite(0)), Decrement)
    ensures Enabled(Apply(Apply(p, CompleteWrite(0)), Decrement), Continue)
    ensures FrameDone(p) == Apply(Apply(Apply(p, CompleteWrite(0)), Decrement), Continue)
  {
  }

  class Connection {
    var validated: bool
    var open: bool
    var closeAfterFlush: bool
    var pendingWrites: nat
    var tasks: seq<Task>
    var out: seq<Message>
    var ops: seq<WriteOp>
    ghost var sleepers: set<nat>
    ghost var wire: seq<byte>
    ghost var hello: seq<byte>
    ghost var front: seq<byte>
    ghost var written: seq<Message>
    ghost var posted: seq<Message>
    ghost var failed: bool
    ghost var firstClose: Option<nat>

    ghost function View(): Pump
      reads this
    {
      Pump(validated, open, closeAfterFlush, pendingWrites, tasks, out, ops, Idle,
           multiset{}, multiset{}, sleepers, wire, hello, front, written, posted, failed, firstClose)
    }

    constructor ()
      ensures View() == START
    {
      validated, open, closeAfterFlush, pendingWrites := false, true, false, 0;
      tasks, out, ops := [], [], [];
      sleepers, wire, hello, front, written, posted := {}, [], [], [], [], [];
      failed, firstClose := false, None;
    }

    method Send(msg: Message) returns (ok: bool)
      modifies this
      ensures ok == (old(validated) && old(open))
      ensures View() == if ok then Sent(old(View()), msg) else old(View())
    {
      if !validated {
        return false;
      }
      if !open {
        return false;
      }
      pendingWrites := pendingWrites + 1;
      tasks := tasks + [Push(msg)];
      posted := posted + [msg];
      assert multiset{} + multiset{msg} - multiset{msg} == multiset{};
      return true;
    }

    method Disconnect()
      modifies this
      ensures View() == if old(open) then Apply(old(View()), PostClose) else old(View())
    {
      if open {
        tasks := tasks + [CloseNow];
      }
    }

    method DisconnectAfterFlush()
      modifies this
      ensures View() == Apply(old(View()), PostFlushClose)
    {
      tasks := tasks + [FlushClose];
      firstClose := if firstClose.None? then Some(|posted|) else firstClose;
    }

    /** The I/O thread runs the next posted task. */
    method RunPosted()
      requires tasks != []
      modifies this
      ensures View() == RunFirst(old(View()))
    {
      var task := tasks[0];
      tasks := tasks[1..];
      match task
      case Push(msg) =>
        var alreadyWriting := out != [];
        out := out + [msg];
        if !alreadyWriting {
          WriteHeader();
        }
      case FlushClose =>
        if out == [] {
          open := false;
        } else {
          closeAfterFlush := true;
        }
      case CloseNow =>
        open, failed := false, true;
    }

    method WriteHeader()
      requires out != []
      modifies this
      ensures View() == StartHeader(old(View()))
    {
      ops := ops + [WriteOp(false, Header(out[0]))];
    }

    method WriteBody()
      requires out != []
      modifies this
      ensures View() == old(View()).(ops := old(ops) + [WriteOp(true, old(out)[0].body)])
    {
      ops := ops + [WriteOp(true, out[0].body)];
    }

    method PopWritten()
      requires out != []
      modifies this
      ensures View().(handler := JustPopped) == PopFront(old(View()))
    {
      written := written + [out[0]];
      out, front := out[1..], [];
    }

    /** Under the flush mutex: count down, and wake the flushing threads at zero. */
    method CountDown()
      modifies this
      ensures View().(handler := JustCounted) == Decremented(old(View()).(handler := JustPopped))
    {
      if pendingWrites > 0 {
        pendingWrites := pendingWrites - 1;
      }
      if pendingWrites == 0 {
        sleepers := {};
      }
    }

    method GoOn()
      modifies this
      ensures View() == Continued(old(View()).(handler := JustCounted))
    {
      if out != [] {
        WriteHeader();
      } else if closeAfterFlush {
        open := false;
      }
    }

    /** The common end of both completion handlers. */
    method PopAndGoOn()
      requires out != []
      modifies this
      ensures View() == Continued(Decremented(PopFront(old(View()))))
    {
      PopWritten();
      CountDown();
      GoOn();
    }

    method OnHeaderWritten(error: bool)
      requires |ops| == 1 && !ops[0].ofBody && out != []
      requires !error ==> ops[0].left == []
      modifies this
      ensures View() ==
              if error then Apply(old(View()), FailWrite(0))
              else if |old(out)[0].body| > 0 then Completed(old(View()), 0)
              else FrameDone(old(View()))
    {
      assert Without(ops, 0) == [];
      ops := [];
      if !error {
        if |out[0].body| > 0 {
          WriteBody();
        } else {
          PopAndGoOn();
        }
      } else {
        open, failed := false, true;
      }
    }

    method OnBodyWritten(error: bool)
      requires |ops| == 1 && ops[0].ofBody && out != []
      requires !error ==> ops[0].left == []
      modifies this
      ensures View() == if error then Apply(old(View()), FailWrite(0)) else FrameDone(old(View()))
    {
      assert Without(ops, 0) == [];
      ops := [];
      assert View() == old(View()).(ops := Without(old(ops), 0));
      if !error {
        assert FrameDone(old(View())) == Continued(Decremented(PopFront(View())));
        PopAndGoOn();
      } else {
        open, failed := false, true;
      }
    }

    /** The predicate that waitForOutgoingQueueEmpty waits for. */
    method Flushed() returns (b: bool)
      ensures b == FlushReturns(View())
    {
      b := pendingWrites == 0 && out == [];
    }
  }
}
