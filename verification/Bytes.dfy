/** Bytes, the fixed-width integers of the wire, and their memory image.
    Both ends copy integers with memcpy on little-endian hosts. */
module Bytes {

  type byte = x: int | 0 <= x < 0x100
  type uint32 = x: int | 0 <= x < 0x1_0000_0000
  type uint64 = x: int | 0 <= x < 0x1_0000_0000_0000_0000

  const TWO32: nat := 0x1_0000_0000
  const TWO64: nat := 0x1_0000_0000_0000_0000

  /** The sizes in bytes of the two integer types on the wire. */
  const WORD: nat := 4
  const QUAD: nat := 8

  function Pow256(w: nat): (p: nat)
    ensures p > 0
  {
    if w == 0 then 1 else 256 * Pow256(w - 1)
  }

  /** The memory image of an integer of w bytes. */
  function LittleEndian(n: nat, w: nat): (bs: seq<byte>)
    ensures |bs| == w
  {
    if w == 0 then [] else [n % 256] + LittleEndian(n / 256, w - 1)
  }

  function FromLittleEndian(bs: seq<byte>): (n: nat)
    ensures n < Pow256(|bs|)
  {
    if bs == [] then 0 else bs[0] + 256 * FromLittleEndian(bs[1..])
  }

  lemma {:induction false} ReadBack(n: nat, w: nat)
    requires n < Pow256(w)
    ensures FromLittleEndian(LittleEndian(n, w)) == n
  {
    if w > 0 {
      ReadBack(n / 256, w - 1);
      assert LittleEndian(n, w)[1..] == LittleEndian(n / 256, w - 1);
    }
  }

  lemma {:induction false} WriteBack(bs: seq<byte>)
    ensures LittleEndian(FromLittleEndian(bs), |bs|) == bs
  {
    if bs != [] {
      WriteBack(bs[1..]);
      var n := FromLittleEndian(bs[1..]);
      assert (bs[0] + 256 * n) % 256 == bs[0] && (bs[0] + 256 * n) / 256 == n;
    }
  }

  lemma ReadBack32(n: uint32)
    ensures FromLittleEndian(LittleEndian(n, WORD)) == n
  {
    PowersOf256();
    ReadBack(n, WORD);
  }

  lemma ReadBack64(n: uint64)
    ensures FromLittleEndian(LittleEndian(n, QUAD)) == n
  {
    PowersOf256();
    ReadBack(n, QUAD);
  }

  lemma PowersOf256()
    ensures Pow256(4) == TWO32 && Pow256(8) == TWO64
  {
    assert Pow256(2) == 0x1_0000;
    assert Pow256(4) == TWO32;
    assert Pow256(6) == TWO32 * 0x1_0000;
  }

  function Zeros(n: nat): (bs: seq<byte>)
    ensures |bs| == n
  {
    seq(n, _ => 0)
  }

  /** Concatenation is associative; naming the step keeps proofs about sequences cheap. */
  lemma Assoc<T>(a: seq<T>, b: seq<T>, c: seq<T>)
    ensures (a + b) + c == a + (b + c)
  {
  }

  lemma LastApart<T>(s: seq<T>)
    requires s != []
    ensures s == s[..|s| - 1] + [s[|s| - 1]]
  {
  }

  function Flatten<T>(parts: seq<seq<T>>): seq<T> {
    if parts == [] then [] else Flatten(parts[..|parts| - 1]) + parts[|parts| - 1]
  }

  lemma {:induction false} FlattenFirst<T>(first: seq<T>, rest: seq<seq<T>>)
    ensures Flatten([first] + rest) == first + Flatten(rest)
  {
    var parts := [first] + rest;
    if rest == [] {
      assert parts[..|parts| - 1] == [];
      assert Flatten([]) + first == first + [];
    } else {
      var n := |rest| - 1;
      FlattenFirst(first, rest[..n]);
      assert parts[..|parts| - 1] == [first] + rest[..n];
      Assoc(first, Flatten(rest[..n]), rest[n]);
    }
  }

  lemma FlattenNext<T>(parts: seq<seq<T>>, n: nat)
    requires n < |parts|
    ensures Flatten(parts[..n + 1]) == Flatten(parts[..n]) + parts[n]
  {
    assert parts[..n + 1][..n] == parts[..n];
  }

  lemma {:induction false} PrefixFlatten<T>(parts: seq<seq<T>>, n: nat)
    requires n <= |parts|
    ensures Flatten(parts[..n]) <= Flatten(parts)
    decreases |parts| - n
  {
    if n < |parts| {
      FlattenNext(parts, n);
      PrefixFlatten(parts, n + 1);
    } else {
      assert parts[..n] == parts;
    }
  }
}
