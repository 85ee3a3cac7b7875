/** The message of net_message.hpp: a header and a body used as a stack of bytes. */
module NetMessage {
  import opened Bytes

  /** A message as a value. On the wire its header is the id and the body length. */
  datatype Message = Message(id: uint32, body: seq<byte>)

  /** What `>>` leaves in a container of the given bytes: the last bytes of the body,
      and the container's own bytes where the body is too short. */
  function Refill(container: seq<byte>, body: seq<byte>): (bs: seq<byte>)
    ensures |bs| == |container|
  {
    if |container| <= |body| then body[|body| - |container|..] else body + container[|body|..]
  }

  /** What `>>` leaves of the body after filling n bytes of a container. */
  function Below(n: nat, body: seq<byte>): seq<byte> {
    if n <= |body| then body[..|body| - n] else []
  }

  /** The mutable message that `<<` and `>>` take by reference. */
  class MessageBuffer {
    var id: uint32
    var size: uint32
    var body: seq<byte>

    /** The header's 32-bit size field is the body length, wrapped; exact below 2^32 bytes. */
    ghost predicate Valid()
      reads this
    {
      size == |body| % TWO32
    }

    constructor (id: uint32)
      ensures Valid() && this.id == id && body == []
    {
      this.id := id;
      size := 0;
      body := [];
    }

    /** A received message: the reader sized the body by the header. */
    constructor Received(msg: Message)
      ensures Valid() && id == msg.id && body == msg.body
    {
      id := msg.id;
      size := |msg.body| % TWO32;
      body := msg.body;
    }

    /** `<<` for a trivially copyable value, given as its memory image. */
    method PushValue(image: seq<byte>)
      modifies this
      ensures Valid() && id == old(id) && body == old(body) + image
    {
      var offset := |body|;
      body := body + Zeros(|image|);
      body := body[..offset] + image;
      size := |body| % TWO32;
    }

    /** `<<` for a container of bytes; an empty one leaves the message as it is. */
    method PushContainer(data: seq<byte>)
      requires Valid()
      modifies this
      ensures Valid() && id == old(id) && body == old(body) + data
    {
      var count := |data|;
      if count == 0 {
        return;
      }
      var offset := |body|;
      body := body + Zeros(count);
      body := body[..offset] + data;
      size := |body| % TWO32;
    }

    /** `>>` for a trivially copyable value of the given size. */
    method PopValue(width: nat) returns (image: seq<byte>)
      requires width <= |body|
      modifies this
      ensures Valid() && id == old(id)
      ensures |image| == width && old(body) == body + image
    {
      var offset := |body| - width;
      image := body[offset..];
      body := body[..offset];
      size := |body| % TWO32;
    }

    /** `>>` for a container of bytes, whose length says how much to take. */
    method PopContainer(data: seq<byte>) returns (filled: seq<byte>)
      requires Valid()
      modifies this
      ensures Valid() && id == old(id)
      ensures filled == Refill(data, old(body)) && body == Below(|data|, old(body))
    {
      var count := |data|;
      if count == 0 {
        filled := data;
        return;
      }
      var copied := if count <= |body| then count else |body|;
      var offset := |body| - copied;
      filled := body[offset..] + data[copied..];
      body := body[..offset];
      size := |body| % TWO32;
    }
  }

  /** The byte stack: popping n bytes after pushing n bytes gives them back. */
  lemma PushThenPop(prefix: seq<byte>, data: seq<byte>, container: seq<byte>)
    requires |container| == |data|
    ensures Refill(container, prefix + data) == data
    ensures Below(|container|, prefix + data) == prefix
  {
    assert (prefix + data)[..|prefix|] == prefix;
    assert (prefix + data)[|prefix|..] == data;
  }

  /** A container longer than the body takes all of it in front and keeps its own bytes after that. */
  lemma ShortPop(container: seq<byte>, body: seq<byte>, i: nat)
    requires |body| < |container| && i < |container|
    ensures Refill(container, body)[i] == if i < |body| then body[i] else container[i]
    ensures Below(|container|, body) == []
  {
  }
}
