/** What the receiving loop makes of any messages whatever: it writes nothing that did not arrive
    under its own digest, and the first message that ends it decides how. */
module Integrity {
  import opened Bytes
  import opened NetMessage
  import opened Codec
  import opened Sessions
  import opened Disks

  /** The messages that end the loop. */
  predicate Ends(h: HashFn, m: Message) {
    Bad(h, m) || m.id == FINAL_CHUNK
  }

  predicate NoneEnds(h: HashFn, ms: seq<Message>) {
    forall i :: 0 <= i < |ms| ==> !Ends(h, ms[i])
  }

  predicate FirstEnd(h: HashFn, ms: seq<Message>, i: nat) {
    i < |ms| && Ends(h, ms[i]) && NoneEnds(h, ms[..i])
  }

  /** The data below the digests of the chunks, where there are any. */
  function Fronts(ms: seq<Message>): seq<seq<byte>> {
    if ms == [] then []
    else
      var m := ms[|ms| - 1];
      Fronts(ms[..|ms| - 1]) + (if m.id == CHUNK && |m.body| > DIGEST_LENGTH then [Front(m.body)] else [])
  }

  lemma GainIs(h: HashFn, st: Recv, m: Message)
    requires !st.finished && !st.failed
    ensures Gain(h, st, m) == if m.id == CHUNK && Genuine(h, m.body) then Front(m.body) else []
  {
    TakeDecides(h, st, m);
    GainTaken(h, st, m);
  }

  /** Messages none of which ends the loop are all written. */
  lemma {:induction false} AllWritten(h: HashFn, ms: seq<Message>)
    requires NoneEnds(h, ms)
    ensures Pieces(h, ms) == Fronts(ms)
    ensures !TakeAll(h, NOTHING, ms).finished && !TakeAll(h, NOTHING, ms).failed
  {
    if ms != [] {
      var front, m := ms[..|ms| - 1], ms[|ms| - 1];
      LastApart(ms);
      AllWritten(h, front);
      TakeNext(h, front, m);
      PiecesNext(h, front, m);
      TakeDecides(h, TakeAll(h, NOTHING, front), m);
      GainIs(h, TakeAll(h, NOTHING, front), m);
    }
  }

  /** One message more, which ends it. */
  lemma EndTaken(h: HashFn, before: seq<Message>, m: Message)
    requires NoneEnds(h, before) && Ends(h, m)
    ensures TakeAll(h, NOTHING, before + [m]).failed <==> Bad(h, m)
    ensures TakeAll(h, NOTHING, before + [m]).finished <==> m.id == FINAL_CHUNK
    ensures Pieces(h, before + [m]) == Fronts(before)
  {
    AllWritten(h, before);
    TakeNext(h, before, m);
    TakeDecides(h, TakeAll(h, NOTHING, before), m);
    PiecesNext(h, before, m);
    GainIs(h, TakeAll(h, NOTHING, before), m);
    assert Pieces(h, before) + [] == Pieces(h, before);
  }

  /** The first Abort, chunk under a wrong digest, or final chunk ends the loop: it fails on the first
      two and finishes on the last, and what is written is the data of all chunks before. */
  lemma FirstEndDecides(h: HashFn, ms: seq<Message>, i: nat)
    requires FirstEnd(h, ms, i)
    ensures TakeAll(h, NOTHING, ms).failed <==> Bad(h, ms[i])
    ensures TakeAll(h, NOTHING, ms).finished <==> ms[i].id == FINAL_CHUNK
    ensures Pieces(h, ms) == Fronts(ms[..i])
  {
    var until := ms[..i] + [ms[i]];
    EndTaken(h, ms[..i], ms[i]);
    assert until <= ms;
    TakeMore(h, until, ms);
    PiecesMore(h, until, ms);
  }

  lemma {:induction false} SomeFirstEnd(h: HashFn, ms: seq<Message>) returns (i: nat)
    requires !NoneEnds(h, ms)
    ensures FirstEnd(h, ms, i)
  {
    i := 0;
    while !Ends(h, ms[i])
      invariant i < |ms| && NoneEnds(h, ms[..i])
      decreases |ms| - i
    {
      i := i + 1;
    }
  }

  lemma OneFirstEnd(h: HashFn, ms: seq<Message>, i: nat, j: nat)
    requires FirstEnd(h, ms, i) && FirstEnd(h, ms, j)
    ensures i == j
  {
    if j < i {
      NotYet(h, ms, i, j);
    } else if i < j {
      NotYet(h, ms, j, i);
    }
  }

  lemma NotYet(h: HashFn, ms: seq<Message>, i: nat, j: nat)
    requires j < i <= |ms| && NoneEnds(h, ms[..i])
    ensures !Ends(h, ms[j])
  {
    assert ms[..i][j] == ms[j];
  }

  ghost predicate FirstEndIsBad(h: HashFn, ms: seq<Message>) {
    exists i: nat :: FirstEnd(h, ms, i) && Bad(h, ms[i])
  }

  ghost predicate FirstEndIsFinal(h: HashFn, ms: seq<Message>) {
    exists i: nat :: FirstEnd(h, ms, i) && ms[i].id == FINAL_CHUNK
  }

  /** The loop fails exactly if the first message that ends it is bad, and finishes exactly if that is
      a final chunk. */
  lemma LoopDecides(h: HashFn, ms: seq<Message>)
    ensures TakeAll(h, NOTHING, ms).failed <==> FirstEndIsBad(h, ms)
    ensures TakeAll(h, NOTHING, ms).finished <==> FirstEndIsFinal(h, ms)
  {
    if NoneEnds(h, ms) {
      AllWritten(h, ms);
    } else {
      var i := SomeFirstEnd(h, ms);
      FirstEndDecides(h, ms, i);
      if FirstEndIsBad(h, ms) {
        var j: nat :| FirstEnd(h, ms, j) && Bad(h, ms[j]);
        OneFirstEnd(h, ms, i, j);
      }
      if FirstEndIsFinal(h, ms) {
        var j: nat :| FirstEnd(h, ms, j) && ms[j].id == FINAL_CHUNK;
        OneFirstEnd(h, ms, i, j);
      }
    }
  }

  lemma PieceOfLast(h: HashFn, front: seq<Message>, m: Message, piece: seq<byte>)
    requires piece != [] && piece == Gain(h, TakeAll(h, NOTHING, front), m)
    ensures m.id == CHUNK && m.body == piece + h(piece)
  {
    var st := TakeAll(h, NOTHING, front);
    if !st.finished && !st.failed {
      GainIs(h, st, m);
      assert m.body == Front(m.body) + m.body[|m.body| - DIGEST_LENGTH..];
    }
  }

  /** Nothing unverified is written: whatever was sent, by whomever, each piece arrived in a chunk
      that ends in its digest. */
  lemma {:induction false} PiecesVerified(h: HashFn, ms: seq<Message>, piece: seq<byte>)
    requires piece in Pieces(h, ms)
    ensures Message(CHUNK, piece + h(piece)) in ms
  {
    var front, m := ms[..|ms| - 1], ms[|ms| - 1];
    LastApart(ms);
    if piece in Pieces(h, front) {
      PiecesVerified(h, front, piece);
    } else {
      PieceOfLast(h, front, m, piece);
      assert m == Message(CHUNK, piece + h(piece));
    }
  }
}
