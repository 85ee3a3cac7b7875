/** The storage and the server of server.cpp as objects that their handlers update in place,
    and the dispatch loop of net_server.hpp. */
module FileServers {
  import opened Bytes
  import opened NetMessage
  import opened Codec
  import opened Server
  import opened TsQueue

  class ClientStorage {
    var pendingPhraseSenders: Bimap<Conn, seq<byte>>
    var pendingTransmissions: map<Conn, Context>
    var sendersReceivers: Bimap<Conn, Conn>
    var sessions: map<Conn, Conn>

    function View(): Store
      reads this
    {
      Store(pendingPhraseSenders, pendingTransmissions, sendersReceivers, sessions)
    }

    constructor ()
      ensures View() == EMPTY_STORE
    {
      pendingPhraseSenders := Bimap(map[], map[]);
      pendingTransmissions := map[];
      sendersReceivers := Bimap(map[], map[]);
      sessions := map[];
    }

    method RemovePendingSender(sender: Conn)
      modifies this
      ensures View() == old(View()).RemovePendingSender(sender)
    {
      pendingPhraseSenders := pendingPhraseSenders.EraseLeft(sender);
      pendingTransmissions := pendingTransmissions - {sender};
    }

    method AddPendingSender(sender: Conn, pre: PreMetadata)
      modifies this
      ensures View() == old(View()).AddPendingSender(sender, pre)
    {
      pendingPhraseSenders := pendingPhraseSenders.Insert(sender, pre.phrase.code);
      if sender !in pendingTransmissions {
        var post := PostMetadata(pre.payload, MAX_CHUNK, pre.phrase, pre.file);
        pendingTransmissions := pendingTransmissions[sender := Context(pre, post)];
      }
    }

    method RemoveSession(sender: Conn)
      modifies this
      ensures View() == old(View()).RemoveSession(sender)
    {
      sessions := sessions - {sender};
      sendersReceivers := sendersReceivers.EraseLeft(sender);
    }

    /** The session added relays to the receiver. */
    method AddSession(sender: Conn, receiver: Conn)
      modifies this
      ensures View() == old(View()).AddSession(sender, receiver)
    {
      sendersReceivers := sendersReceivers.Insert(sender, receiver);
      if sender !in sessions {
        sessions := sessions[sender := receiver];
      }
    }
  }

  /** A message with the connection it came from. */
  datatype Inbound = Inbound(from: Conn, msg: Message)

  /** Messages handled while these connections accepted sends. */
  function Events(inbound: seq<Inbound>, opens: seq<set<Conn>>): (events: seq<Event>)
    requires |inbound| == |opens|
    ensures |events| == |inbound|
  {
    seq(|inbound|, i requires 0 <= i < |inbound| => Handled(inbound[i].from, inbound[i].msg, opens[i]))
  }

  /** What the I/O thread does before a test of the queue: messages arrive, connections open and close. */
  datatype Round = Round(batch: seq<Inbound>, open: set<Conn>)

  function Batches(rounds: seq<Round>): (batches: seq<seq<Inbound>>)
    ensures |batches| == |rounds|
    ensures forall i :: 0 <= i < |rounds| ==> batches[i] == rounds[i].batch
  {
    seq(|rounds|, i requires 0 <= i < |rounds| => rounds[i].batch)
  }

  /** The connections that accept sends while each of the first n messages is handled. */
  function OpenSets(first: set<Conn>, rounds: seq<Round>, n: nat): (opens: seq<set<Conn>>)
    ensures |opens| == n
  {
    seq(n, i requires 0 <= i < n => OpenAt(first, rounds, i))
  }

  function OpenAt(first: set<Conn>, rounds: seq<Round>, i: nat): set<Conn> {
    if rounds == [] then first else rounds[if i < |rounds| then i else |rounds| - 1].open
  }

  lemma OpenSetsNext(first: set<Conn>, rounds: seq<Round>, n: nat)
    ensures OpenSets(first, rounds, n + 1) == OpenSets(first, rounds, n) + [OpenAt(first, rounds, n)]
  {
  }

  lemma ThenClose(before: seq<Effect>, posts: seq<Post>, c: Conn)
    ensures before + PostedAll(posts) + [CloseAfterFlush(c)] == before + (PostedAll(posts) + CloseAll([c]))
  {
    assert [c][1..] == [] && CloseAll([c]) == [CloseAfterFlush(c)] + CloseAll([]);
  }

  lemma NoClose(before: seq<Effect>, posts: seq<Post>)
    ensures before + PostedAll(posts) == before + (PostedAll(posts) + CloseAll([]))
  {
  }

  lemma OnePosted(p: Post)
    ensures PostedAll([p]) == [Posted(p.to, p.msg)]
  {
    assert [p][1..] == [] && PostedAll([p]) == [Posted(p.to, p.msg)] + PostedAll([]);
  }

  class FileServer {
    const storage: ClientStorage
    const messagesIn: TSQueue<Inbound>
    var open: set<Conn>           // the connections that accept a send
    var effects: seq<Effect>      // the messages they accepted and the calls of disconnectAfterFlush

    constructor ()
      ensures fresh(storage) && storage.View() == EMPTY_STORE
      ensures fresh(messagesIn) && messagesIn.deq == []
      ensures effects == [] && open == {}
    {
      storage := new ClientStorage();
      messagesIn := new TSQueue();
      open, effects := {}, [];
    }

    /** The effect of a handler on everything it may change. */
    twostate predicate Did(o: Outcome)
      reads this, storage
    {
      && storage.View() == o.store
      && effects == old(effects) + o.Effects()
      && open == old(open)
    }

    method Send(to: Conn, msg: Message) returns (ok: bool)
      modifies this`effects
      ensures ok == (to in open)
      ensures effects == old(effects) + PostedAll(Offer(open, to, msg))
    {
      ok := to in open;
      OnePosted(Post(to, msg));
      if ok {
        effects := effects + [Posted(to, msg)];
      }
    }

    /** Removing a session also tells its sender to close after flushing. */
    method RemoveSession(sender: Conn)
      modifies this`effects, storage
      ensures storage.View() == old(storage.View()).RemoveSession(sender)
      ensures effects == old(effects) + [CloseAfterFlush(sender)]
    {
      storage.RemoveSession(sender);
      effects := effects + [CloseAfterFlush(sender)];
    }

    /** The session's own handler: it relays the three kinds of transfer message. */
    method SessionOnMessage(sink: Conn, msg: Message) returns (ok: bool)
      modifies this`effects
      ensures var relays := msg.id == CHUNK || msg.id == FINAL_CHUNK || msg.id == ABORT;
              && ok == (relays && sink in open)
              && effects == old(effects) + PostedAll(if relays then Offer(open, sink, msg) else [])
    {
      if msg.id == CHUNK || msg.id == FINAL_CHUNK || msg.id == ABORT {
        ok := Send(sink, msg);
      } else {
        ok := false;
      }
    }

    method OnClientDisconnect(client: Conn)
      modifies this, storage
      ensures Did(React(old(storage.View()), Gone(client)))
    {
      ThenClose(effects, [], client);
      RemoveSession(client);
      storage.RemovePendingSender(client);
    }

    method RemoveSessionAbruptly(client: Conn)
      modifies this, storage
      ensures Did(RemoveAbruptly(old(storage.View()), open, client))
    {
      if client in storage.sessions {
        var abort := EncodedEmpty(ABORT);
        var relayed := SessionOnMessage(storage.sessions[client], abort);
      }
      ThenClose(old(effects), RemoveAbruptly(old(storage.View()), open, client).posts, client);
      storage.RemovePendingSender(client);
      RemoveSession(client);
    }

    method OnSendEstablishment(client: Conn, msg: Message)
      requires DecodePre(msg.body).Popped?
      modifies this, storage
      ensures Did(OnSend(old(storage.View()), open, client, msg))
    {
      storage.RemovePendingSender(client);
      var buffer := new MessageBuffer.Received(msg);
      var pre := PopPre(buffer);
      if client in storage.sessions {
        var reply := EncodedEmpty(REJECT);
        var sent := Send(client, reply);
        ThenClose(old(effects), Offer(open, client, Control(REJECT)), client);
        RemoveSession(client);
        storage.RemovePendingSender(client);
      } else {
        NoClose(effects, []);
      }
      storage.AddPendingSender(client, pre);
    }

    method OnReceiveEstablishment(client: Conn, msg: Message)
      requires DecodePre(msg.body).Popped?
      modifies this, storage
      ensures Did(OnRequestReceive(old(storage.View()), open, client, msg))
    {
      var buffer := new MessageBuffer.Received(msg);
      var request := PopPre(buffer);
      var code := request.phrase.code;
      if code !in storage.pendingPhraseSenders.right {
        var reply := EncodedEmpty(REJECT);
        var sent := Send(client, reply);
        return;
      }
      var sender := storage.pendingPhraseSenders.right[code];
      if sender !in storage.pendingTransmissions {
        var reply := EncodedEmpty(REJECT);
        var sent := Send(client, reply);
        return;
      }
      var accept := EncodedPost(ACCEPT, storage.pendingTransmissions[sender].post);
      var sent := Send(client, accept);
    }

    method EstablishTransmissionSession(receiver: Conn, msg: Message)
      requires DecodePhrase(msg.body).Popped?
      modifies this, storage
      ensures Did(OnReceive(old(storage.View()), open, receiver, msg))
    {
      var buffer := new MessageBuffer.Received(msg);
      var request := PopPhrase(buffer);
      if request.code !in storage.pendingPhraseSenders.right {
        var reply := EncodedEmpty(ABORT);
        var sent := Send(receiver, reply);
        return;
      }
      var sender := storage.pendingPhraseSenders.right[request.code];
      if sender !in storage.pendingTransmissions {
        RemoveSessionAbruptly(sender);
        return;
      }
      var context := storage.pendingTransmissions[sender];
      storage.AddSession(sender, receiver);
      var accept := EncodedPost(ACCEPT, context.post);
      var sent := Send(sender, accept);
    }

    method FinishSession(receiver: Conn)
      modifies this, storage
      ensures Did(OnFinish(old(storage.View()), open, receiver))
    {
      if receiver in storage.sendersReceivers.right {
        var sender := storage.sendersReceivers.right[receiver];
        var reply := EncodedEmpty(SUCCESS);
        var sent := Send(sender, reply);
        ThenClose(old(effects), Offer(open, sender, Control(SUCCESS)), sender);
        storage.RemovePendingSender(sender);
        RemoveSession(sender);
      }
    }

    method OnSessionedMessage(client: Conn, sink: Conn, msg: Message)
      requires client in storage.sessions && storage.sessions[client] == sink
      modifies this, storage
      ensures Did(OnSessioned(old(storage.View()), open, client, msg))
    {
      if msg.id == FINAL_CHUNK {
        var relayed := SessionOnMessage(sink, msg);
      } else if msg.id == CHUNK {
        if (|msg.body| - DIGEST_LENGTH) % TWO64 > MAX_CHUNK {
          RemoveSessionAbruptly(client);
        } else {
          var relayed := SessionOnMessage(sink, msg);
          if !relayed {
            RemoveSessionAbruptly(client);
          }
        }
      } else {
        RemoveSessionAbruptly(client);
      }
    }

    method OnMessage(client: Conn, msg: Message)
      requires Decodable(msg)
      modifies this, storage
      ensures Did(Handle(old(storage.View()), open, client, msg))
    {
      if client in storage.sessions {
        OnSessionedMessage(client, storage.sessions[client], msg);
      } else if msg.id == SEND {
        OnSendEstablishment(client, msg);
      } else if msg.id == REQUEST_RECEIVE {
        OnReceiveEstablishment(client, msg);
      } else if msg.id == RECEIVE {
        EstablishTransmissionSession(client, msg);
      } else if msg.id == FINISH_RECEIVE {
        FinishSession(client);
      } else if msg.id == FAILED_RECEIVE {
        if client in storage.sendersReceivers.right {
          RemoveSessionAbruptly(storage.sendersReceivers.right[client]);
        }
      }
    }

    predicate Queued()
      reads messagesIn
    {
      forall x :: x in messagesIn.deq ==> Decodable(x.msg)
    }

    /** The I/O thread pushes messages, and connections open and close. */
    method Arrive(round: Round)
      requires Queued() && forall x :: x in round.batch ==> Decodable(x.msg)
      modifies this`open, messagesIn
      ensures Queued() && messagesIn.deq == old(messagesIn.deq) + round.batch && open == round.open
    {
      for i := 0 to |round.batch|
        invariant messagesIn.deq == old(messagesIn.deq) + round.batch[..i]
      {
        messagesIn.PushBack(round.batch[i]);
        Assoc(old(messagesIn.deq), round.batch[..i], [round.batch[i]]);
        assert round.batch[..i + 1] == round.batch[..i] + [round.batch[i]];
      }
      assert round.batch[..|round.batch|] == round.batch;
      open := round.open;
    }

    /** The server stands where handling these messages from the given start leaves it. */
    ghost predicate Ran(start: Store, effects0: seq<Effect>, handled: seq<Inbound>, opens: seq<set<Conn>>)
      requires |handled| == |opens|
      reads this`effects, storage
    {
      && Legal(Events(handled, opens))
      && storage.View() == StoreAfter(start, Events(handled, opens))
      && effects == effects0 + EffectsOf(start, Events(handled, opens))
    }

    /** One turn of the loop: pop a message and handle it. */
    method Dispatch(ghost start: Store, ghost effects0: seq<Effect>,
                    ghost handled: seq<Inbound>, ghost opens: seq<set<Conn>>)
      returns (next: Inbound)
      requires Queued() && messagesIn.deq != [] && |handled| == |opens| && Ran(start, effects0, handled, opens)
      modifies this, storage, messagesIn
      ensures Queued() && [next] + messagesIn.deq == old(messagesIn.deq) && open == old(open)
      ensures Ran(start, effects0, handled + [next], opens + [open])
    {
      assert messagesIn.deq[0] in messagesIn.deq;
      next := messagesIn.PopFront();
      AppendEvent(start, handled, opens, next, open);
      OnMessage(next.from, next.msg);
      var before := Events(handled, opens);
      Assoc(effects0, EffectsOf(start, before),
            Handle(StoreAfter(start, before), open, next.from, next.msg).Effects());
    }

    /** Where the loop stands after handling these messages in these rounds. */
    ghost predicate Progress(start: Store, effects0: seq<Effect>, first: seq<Inbound>, open0: set<Conn>,
                             rounds: seq<Round>, handled: seq<Inbound>, opens: seq<set<Conn>>, used: nat)
      reads this, storage, messagesIn
    {
      && Queued() && used <= |rounds|
      && open == (if used == 0 then open0 else rounds[used - 1].open)
      && handled + messagesIn.deq == first + Flatten(Batches(rounds)[..used])
      && opens == OpenSets(open0, rounds, |handled|)
      && Ran(start, effects0, handled, opens)
    }

    /** One turn of the loop: a round of the I/O thread, the test of the queue, and a message. */
    method Turn(rounds: seq<Round>, used: nat, ghost start: Store, ghost effects0: seq<Effect>,
                ghost first: seq<Inbound>, ghost open0: set<Conn>,
                ghost handled: seq<Inbound>, ghost opens: seq<set<Conn>>)
      returns (empty: bool, next: Inbound, used': nat)
      requires Progress(start, effects0, first, open0, rounds, handled, opens, used)
      requires used == if |handled| < |rounds| then |handled| else |rounds|
      requires forall i, x :: 0 <= i < |rounds| && x in rounds[i].batch ==> Decodable(x.msg)
      modifies this, storage, messagesIn
      ensures used' == if used < |rounds| then used + 1 else used
      ensures empty ==> messagesIn.deq == []
                        && Progress(start, effects0, first, open0, rounds, handled, opens, used')
      ensures !empty ==> Progress(start, effects0, first, open0, rounds, handled + [next], opens + [open], used')
    {
      used' := used;
      if used < |rounds| {
        NextRound(rounds, used, handled, first);
        used' := used + 1;
      }
      empty := messagesIn.Empty();
      next := Inbound(0, Message(0, []));
      if !empty {
        next := Dispatch(start, effects0, handled, opens);
        Assoc(handled, [next], messagesIn.deq);
        OpenSetsNext(open0, rounds, |handled|);
      }
    }

    /** The dispatch loop, with a round of the I/O thread before each test of the queue. It handles
        what it takes in the order of arrival, at most maxMessages, each under the connections then
        open, and leaves the rest in the queue. */
    method Update(maxMessages: nat, rounds: seq<Round>)
      returns (handled: seq<Inbound>, opens: seq<set<Conn>>, used: nat)
      requires Queued()
      requires forall i, x :: 0 <= i < |rounds| && x in rounds[i].batch ==> Decodable(x.msg)
      modifies this, storage, messagesIn
      ensures |handled| <= maxMessages && used <= |rounds|
      ensures handled + messagesIn.deq == old(messagesIn.deq) + Flatten(Batches(rounds)[..used])
      ensures opens == OpenSets(old(open), rounds, |handled|)
      ensures |handled| < maxMessages ==> messagesIn.deq == []
      ensures Ran(old(storage.View()), old(effects), handled, opens)
    {
      handled, opens, used := [], [], 0;
      ghost var start, effects0, first, open0 := storage.View(), effects, messagesIn.deq, open;
      while |handled| < maxMessages
        invariant |handled| <= maxMessages
        invariant used == if |handled| < |rounds| then |handled| else |rounds|
        invariant Progress(start, effects0, first, open0, rounds, handled, opens, used)
      {
        var empty, next;
        empty, next, used := Turn(rounds, used, start, effects0, first, open0, handled, opens);
        if empty {
          break;
        }
        handled, opens := handled + [next], opens + [open];
      }
    }

    method NextRound(rounds: seq<Round>, used: nat, ghost handled: seq<Inbound>, ghost first: seq<Inbound>)
      requires Queued() && used < |rounds| && forall x :: x in rounds[used].batch ==> Decodable(x.msg)
      requires handled + messagesIn.deq == first + Flatten(Batches(rounds)[..used])
      modifies this`open, messagesIn
      ensures Queued() && open == rounds[used].open
      ensures handled + messagesIn.deq == first + Flatten(Batches(rounds)[..used + 1])
    {
      NextBatch(handled, messagesIn.deq, first, Batches(rounds), used);
      Arrive(rounds[used]);
    }

    lemma NextBatch(handled: seq<Inbound>, queue: seq<Inbound>, first: seq<Inbound>,
                    arrivals: seq<seq<Inbound>>, used: nat)
      requires used < |arrivals|
      requires handled + queue == first + Flatten(arrivals[..used])
      ensures handled + (queue + arrivals[used]) == first + Flatten(arrivals[..used + 1])
    {
      FlattenNext(arrivals, used);
      Assoc(handled, queue, arrivals[used]);
      Assoc(first, Flatten(arrivals[..used]), arrivals[used]);
    }
  }

  /** Handling one more message is one more event of the run. */
  lemma AppendEvent(st: Store, handled: seq<Inbound>, opens: seq<set<Conn>>, next: Inbound, open: set<Conn>)
    requires |handled| == |opens| && Decodable(next.msg) && Legal(Events(handled, opens))
    ensures Legal(Events(handled + [next], opens + [open]))
    ensures var now := StoreAfter(st, Events(handled, opens)); var o := Handle(now, open, next.from, next.msg);
            var events := Events(handled + [next], opens + [open]);
            && StoreAfter(st, events) == o.store
            && PostsOf(st, events) == PostsOf(st, Events(handled, opens)) + o.posts
            && EffectsOf(st, events) == EffectsOf(st, Events(handled, opens)) + o.Effects()
  {
    var e := Handled(next.from, next.msg, open);
    var before := Events(handled, opens);
    assert Events(handled + [next], opens + [open]) == before + [e];
    SplitStore(st, before, [e]);
    SplitPosts(st, before, [e]);
    SplitEffects(st, before, [e]);
    OneEvent(StoreAfter(st, before), e);
  }

  lemma OneEvent(st: Store, e: Event)
    requires LegalEvent(e)
    ensures StoreAfter(st, [e]) == React(st, e).store
    ensures PostsOf(st, [e]) == React(st, e).posts && EffectsOf(st, [e]) == React(st, e).Effects()
  {
    FirstEvent(st, e, []);
    assert [e] + [] == [e];
    assert React(st, e).posts + [] == React(st, e).posts;
    assert React(st, e).Effects() + [] == React(st, e).Effects();
  }
}
