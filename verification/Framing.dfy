/** The byte stream of one direction of a connection: an eight-byte handshake, then frames.
    A frame is the message header (id and size, four bytes each) followed by the body. */
module Framing {
  import opened Bytes
  import opened NetMessage

  const HANDSHAKE: nat := 8
  const HEADER: nat := 8

  /** The header's size field is 32 bits wide. */
  predicate Sendable(m: Message) {
    |m.body| < TWO32
  }

  function Header(m: Message): (bs: seq<byte>)
    ensures |bs| == HEADER
  {
    LittleEndian(m.id, WORD) + LittleEndian(|m.body|, WORD)
  }

  function Frame(m: Message): (bs: seq<byte>)
    ensures |bs| == HEADER + |m.body|
  {
    Header(m) + m.body
  }

  function Frames(ms: seq<Message>): seq<byte> {
    if ms == [] then [] else Frame(ms[0]) + Frames(ms[1..])
  }

  lemma {:induction false} FramesAppend(a: seq<Message>, b: seq<Message>)
    ensures Frames(a + b) == Frames(a) + Frames(b)
  {
    if a == [] {
      assert a + b == b;
    } else {
      var rest := a[1..];
      FramesAppend(rest, b);
      assert (a + b)[1..] == rest + b;
      Assoc(Frame(a[0]), Frames(rest), Frames(b));
    }
  }

  // ---------- the reader ----------

  function IdOf(header: seq<byte>): uint32
    requires |header| == HEADER
  {
    PowersOf256();
    FromLittleEndian(header[..4])
  }

  function SizeOf(header: seq<byte>): uint32
    requires |header| == HEADER
  {
    PowersOf256();
    FromLittleEndian(header[4..])
  }

  /** The messages that reading headers and bodies in turn gets out of a stream of frames. */
  function Delivered(stream: seq<byte>): seq<Message> {
    if |stream| < HEADER then []
    else
      var size := SizeOf(stream[..HEADER]);
      if |stream| < HEADER + size then []
      else [Message(IdOf(stream[..HEADER]), stream[HEADER..HEADER + size])]
           + Delivered(stream[HEADER + size..])
  }

  lemma HeaderFields(m: Message)
    ensures IdOf(Header(m)) == m.id
    ensures Sendable(m) ==> SizeOf(Header(m)) == |m.body|
  {
    ReadBack32(m.id);
    if Sendable(m) {
      ReadBack32(|m.body|);
    }
    assert Header(m)[..4] == LittleEndian(m.id, WORD);
    assert Header(m)[4..] == LittleEndian(|m.body|, WORD);
  }

  lemma FirstFrame(m: Message, rest: seq<byte>)
    requires Sendable(m)
    ensures Delivered(Frame(m) + rest) == [m] + Delivered(rest)
  {
    var stream := Frame(m) + rest;
    HeaderFields(m);
    assert stream[..HEADER] == Header(m);
    assert stream[HEADER..HEADER + |m.body|] == m.body;
    assert stream[HEADER + |m.body|..] == rest;
  }

  /** A frame is read back exactly when the body length fits the size field. */
  lemma FrameRoundTrip(m: Message)
    ensures Delivered(Frame(m)) == [m] <==> Sendable(m)
  {
    if Sendable(m) {
      FirstFrame(m, []);
      assert Frame(m) + [] == Frame(m);
      assert [m] + Delivered([]) == [m];
    } else {
      var ms := Delivered(Frame(m));
      assert ms != [] ==> |ms[0].body| == SizeOf(Frame(m)[..HEADER]);
    }
  }

  /** How many of the messages have their whole frame within the first n bytes. */
  function CompleteFrames(ms: seq<Message>, n: nat): (k: nat)
    ensures k <= |ms|
  {
    if ms == [] || n < |Frame(ms[0])| then 0
    else 1 + CompleteFrames(ms[1..], n - |Frame(ms[0])|)
  }

  /** CompleteFrames counts exactly: its frames fit and one more would not. */
  lemma {:induction false} CompleteFramesExact(ms: seq<Message>, n: nat)
    ensures var k := CompleteFrames(ms, n);
            |Frames(ms[..k])| <= n && (k < |ms| ==> n < |Frames(ms[..k + 1])|)
  {
    if ms != [] && n >= |Frame(ms[0])| {
      var k := CompleteFrames(ms[1..], n - |Frame(ms[0])|);
      CompleteFramesExact(ms[1..], n - |Frame(ms[0])|);
      assert ms[..1 + k][1..] == ms[1..][..k];
      if 1 + k < |ms| {
        assert ms[..2 + k][1..] == ms[1..][..k + 1];
      }
    } else if ms != [] {
      assert ms[..1][1..] == [];
    }
  }

  lemma {:induction false} FittingFramesAreComplete(a: seq<Message>, ms: seq<Message>, n: nat)
    requires a <= ms && |Frames(a)| <= n
    ensures |a| <= CompleteFrames(ms, n)
  {
    if a != [] {
      FittingFramesAreComplete(a[1..], ms[1..], n - |Frame(ms[0])|);
    }
  }

  /** On any prefix of a stream of frames the reader delivers exactly the complete ones. */
  lemma {:induction false} PrefixDelivery(ms: seq<Message>, p: seq<byte>)
    requires forall m :: m in ms ==> Sendable(m)
    requires p <= Frames(ms)
    ensures Delivered(p) == ms[..CompleteFrames(ms, |p|)]
  {
    if ms != [] {
      var m, f, tail := ms[0], Frame(ms[0]), Frames(ms[1..]);
      if |p| < HEADER {
      } else if |p| < |f| {
        PartOfFrame(m, p, tail);
      } else {
        var rest := p[|f|..];
        PrefixOfSum(p, f, tail);
        PrefixDelivery(ms[1..], rest);
        NextFrame(ms, rest, CompleteFrames(ms[1..], |rest|));
      }
    }
  }

  lemma NextFrame(ms: seq<Message>, rest: seq<byte>, k: nat)
    requires ms != [] && Sendable(ms[0]) && k <= |ms| - 1 && Delivered(rest) == ms[1..][..k]
    ensures Delivered(Frame(ms[0]) + rest) == ms[..1 + k]
  {
    FirstFrame(ms[0], rest);
    assert [ms[0]] + ms[1..][..k] == ms[..1 + k];
  }

  lemma PartOfFrame(m: Message, p: seq<byte>, tail: seq<byte>)
    requires Sendable(m) && p <= Frame(m) + tail && HEADER <= |p| < |Frame(m)|
    ensures Delivered(p) == []
  {
    assert p[..HEADER] == (Frame(m) + tail)[..HEADER] == Header(m);
    HeaderFields(m);
  }

  lemma PrefixOfSum(p: seq<byte>, a: seq<byte>, b: seq<byte>)
    requires p <= a + b && |a| <= |p|
    ensures p == a + p[|a|..] && p[|a|..] <= b
  {
    assert p[..|a|] == (a + b)[..|a|] == a;
    assert (a + b)[|a|..] == b;
  }

  /** Complete frames are taken off one by one, whatever follows them. */
  lemma {:induction false} FramesThen(ms: seq<Message>, rest: seq<byte>)
    requires forall m :: m in ms ==> Sendable(m)
    ensures Delivered(Frames(ms) + rest) == ms + Delivered(rest)
  {
    if ms == [] {
      assert Frames(ms) + rest == rest;
      assert ms + Delivered(rest) == Delivered(rest);
    } else {
      FramesThen(ms[1..], rest);
      OneFrameThen(ms[0], ms[1..], rest);
      assert [ms[0]] + ms[1..] == ms;
    }
  }

  lemma OneFrameThen(m: Message, tail: seq<Message>, rest: seq<byte>)
    requires Sendable(m)
    requires Delivered(Frames(tail) + rest) == tail + Delivered(rest)
    ensures Delivered((Frame(m) + Frames(tail)) + rest) == ([m] + tail) + Delivered(rest)
  {
    Assoc(Frame(m), Frames(tail), rest);
    FirstFrame(m, Frames(tail) + rest);
    Assoc([m], tail, Delivered(rest));
  }

  // ---------- a whole direction, with its handshake ----------

  /** What a reader that expects the given eight handshake bytes gets out of a stream. */
  function Received(expected: seq<byte>, stream: seq<byte>): seq<Message> {
    if |stream| < HANDSHAKE || stream[..HANDSHAKE] != expected then []
    else Delivered(stream[HANDSHAKE..])
  }

  /** A peer that opens with the expected bytes is understood on every prefix of what it writes;
      from a peer that opens with anything else no message is taken. */
  lemma DirectionDelivery(expected: seq<byte>, hello: seq<byte>, ms: seq<Message>, p: seq<byte>)
    requires |expected| == |hello| == HANDSHAKE
    requires forall m :: m in ms ==> Sendable(m)
    requires p <= hello + Frames(ms)
    ensures Received(expected, p) ==
            if hello == expected && |p| >= HANDSHAKE then ms[..CompleteFrames(ms, |p| - HANDSHAKE)] else []
  {
    var whole := hello + Frames(ms);
    if |p| >= HANDSHAKE {
      assert p[..HANDSHAKE] == whole[..HANDSHAKE] == hello;
      assert p[HANDSHAKE..] <= Frames(ms) by {
        assert whole[HANDSHAKE..] == Frames(ms);
      }
      PrefixDelivery(ms, p[HANDSHAKE..]);
    }
  }

  /** The challenge and the reply: the server takes messages from a client that answers with the
      function of the challenge the two share, and from no client that answers otherwise. */
  lemma HandshakeDecides(obfuscate: uint64 -> uint64, challenge: uint64, reply: uint64, ms: seq<Message>)
    requires forall m :: m in ms ==> Sendable(m)
    requires ms != []
    ensures Received(LittleEndian(obfuscate(challenge), QUAD), LittleEndian(reply, QUAD) + Frames(ms)) == ms
            <==> reply == obfuscate(challenge)
  {
    var expected, hello := LittleEndian(obfuscate(challenge), QUAD), LittleEndian(reply, QUAD);
    var stream := hello + Frames(ms);
    assert stream[..HANDSHAKE] == hello && stream[HANDSHAKE..] == Frames(ms);
    FramesThen(ms, []);
    assert Frames(ms) + [] == Frames(ms) && ms + Delivered([]) == ms;
    ReadBack64(reply);
    ReadBack64(obfuscate(challenge));
  }

  // ---------- the asynchronous reads ----------

  /** A header that was read and the body it announced are the frame of the message formed. */
  lemma FrameFrom(header: seq<byte>, body: seq<byte>)
    requires |header| == HEADER && |body| == SizeOf(header)
    ensures Frames([Message(IdOf(header), body)]) == header + body
  {
    WriteBack(header[..4]);
    WriteBack(header[4..]);
    var m := Message(IdOf(header), body);
    assert Frames([m]) == Frame(m) + Frames([]);
  }

  datatype Phase = Greeting | AwaitHeader | AwaitBody(header: seq<byte>)

  lemma Regroup(a: seq<byte>, b: seq<byte>, c: seq<byte>, d: seq<byte>)
    ensures a + (b + (c + d)) == a + (b + c) + d
    ensures a + b + (c + d) == a + (b + c) + d
  {
  }

  /** readValidation, readHeader and readBody: each read completes when the bytes it asked for
      have arrived, however the network cut the stream into pieces. */
  class FrameReader {
    const expected: seq<byte>
    var phase: Phase
    var pending: seq<byte>      // arrived, not yet taken by a completed read
    var open: bool
    var incoming: seq<Message>
    ghost var arrived: seq<byte>

    ghost predicate Valid()
      reads this
    {
      && |expected| == HANDSHAKE
      && (phase.AwaitBody? ==> |phase.header| == HEADER)
      && (forall m :: m in incoming ==> Sendable(m))
      && if !open then incoming == [] && |arrived| >= HANDSHAKE && arrived[..HANDSHAKE] != expected
         else match phase
              case Greeting => pending == arrived && incoming == []
              case AwaitHeader => arrived == expected + Frames(incoming) + pending
              case AwaitBody(header) => arrived == expected + Frames(incoming) + (header + pending)
    }

    /** How many bytes the outstanding read asks for. */
    function Need(): nat
      reads this
      requires phase.AwaitBody? ==> |phase.header| == HEADER
    {
      match phase
      case Greeting => HANDSHAKE
      case AwaitHeader => HEADER
      case AwaitBody(header) => SizeOf(header)
    }

    constructor (expected: seq<byte>)
      requires |expected| == HANDSHAKE
      ensures Valid() && this.expected == expected && arrived == [] && incoming == [] && open
    {
      this.expected := expected;
      phase, pending, open, incoming, arrived := Greeting, [], true, [], [];
    }

    /** readValidation completes: go on to the first header, or close. */
    method OnGreetingRead()
      requires Valid() && open && phase.Greeting? && |pending| >= Need()
      modifies this
      ensures Valid() && arrived == old(arrived) && |pending| < |old(pending)|
    {
      var taken := pending[..HANDSHAKE];
      if taken == expected {
        phase := AwaitHeader;
      } else {
        open := false;
      }
      pending := pending[HANDSHAKE..];
      assert taken + pending == arrived;
      assert expected + Frames([]) + pending == expected + pending;
    }

    /** readHeader completes: ask for the body it announces. */
    method OnHeaderRead()
      requires Valid() && open && phase.AwaitHeader? && |pending| >= Need()
      modifies this
      ensures Valid() && arrived == old(arrived) && |pending| < |old(pending)|
    {
      var header := pending[..HEADER];
      phase := AwaitBody(header);
      pending := pending[HEADER..];
      assert header + pending == old(pending);
    }

    /** readBody completes (at once when the body is empty): add the formed message. */
    method OnBodyRead()
      requires Valid() && open && phase.AwaitBody? && |pending| >= Need()
      modifies this
      ensures Valid() && arrived == old(arrived) && |pending| <= |old(pending)| && phase.AwaitHeader?
    {
      var header, n := phase.header, Need();
      var body := pending[..n];
      var formed := Message(IdOf(header), body);
      FramesAppend(incoming, [formed]);
      FrameFrom(header, body);
      Regroup(expected + Frames(incoming), header, body, pending[n..]);
      assert pending == body + pending[n..];
      Regroup(expected, Frames(incoming), header + body, pending[n..]);
      incoming := incoming + [formed];
      phase := AwaitHeader;
      pending := pending[n..];
    }

    /** Bytes arrive: every read they complete is handled. */
    method OnArrival(bytes: seq<byte>)
      requires Valid()
      modifies this
      ensures Valid() && arrived == old(arrived) + bytes
      ensures incoming == Received(expected, arrived)
    {
      ghost var before := arrived;
      Extend(bytes);
      while open && |pending| >= Need()
        invariant Valid() && arrived == before + bytes
        decreases |pending|, if phase.AwaitBody? then 1 else 0
      {
        match phase
        case Greeting => OnGreetingRead();
        case AwaitHeader => OnHeaderRead();
        case AwaitBody(_) => OnBodyRead();
      }
      Drained();
    }

    /** When the outstanding read is short of bytes, everything complete has been delivered. */
    lemma Drained()
      requires Valid() && (open ==> |pending| < Need())
      ensures incoming == Received(expected, arrived)
    {
      if open && !phase.Greeting? {
        var unread := (if phase.AwaitBody? then phase.header else []) + pending;
        assert arrived == expected + (Frames(incoming) + unread);
        assert arrived[HANDSHAKE..] == Frames(incoming) + unread;
        FramesThen(incoming, unread);
        if phase.AwaitBody? {
          assert unread[..HEADER] == phase.header;
        }
        assert Delivered(unread) == [];
      }
    }

    /** The socket buffer grows. */
    method Extend(bytes: seq<byte>)
      requires Valid()
      modifies this
      ensures Valid() && arrived == old(arrived) + bytes
      ensures phase == old(phase) && open == old(open)
    {
      arrived := arrived + bytes;
      pending := pending + bytes;
    }
  }
}
