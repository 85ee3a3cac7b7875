/** Where the bytes of headers and structs stand, counted from the ends, as the memory images of the
    program put them. The round trips alone would also hold of any other order. */
module Layout {
  import opened Bytes
  import opened NetMessage
  import opened Codec
  import opened Framing

  /** The digit of n that i divisions by 256 bring to the front. */
  function Digit(n: nat, i: nat): nat {
    if i == 0 then n % 256 else Digit(n / 256, i - 1)
  }

  /** The least byte comes first. */
  lemma {:induction false} LeastFirst(n: nat, w: nat, i: nat)
    requires i < w
    ensures LittleEndian(n, w)[i] == Digit(n, i)
  {
    if i > 0 {
      LeastFirst(n / 256, w - 1, i - 1);
    }
  }

  /** A header is the id and then the size of the body, four bytes each, least byte first. */
  lemma HeaderLayout(m: Message, i: nat)
    requires i < 4
    ensures Header(m)[i] == Digit(m.id, i) && Header(m)[4 + i] == Digit(|m.body|, i)
  {
    LeastFirst(m.id, WORD, i);
    LeastFirst(|m.body|, WORD, i);
  }

  /** From the end of the body down: the size of the code, the code. */
  lemma PhraseLayout(prefix: seq<byte>, c: CodePhrase)
    ensures var b := prefix + EncodePhrase(c); var n := |b|;
            && n == |prefix| + |c.code| + 1
            && b[n - 1] == c.codeSize && b[n - 1 - |c.code|..n - 1] == c.code && b[..n - 1 - |c.code|] == prefix
  {
  }

  /** The size of the file, the size of its name, the name. */
  lemma FileLayout(f: FileData)
    ensures var b := EncodeFile(f); var n := |b|;
            && n == |f.name| + 9
            && FromLittleEndian(b[n - 8..]) == f.fileSize && b[n - 9] == f.nameSize && b[..n - 9] == f.name
  {
    var b := EncodeFile(f);
    assert b[|b| - 8..] == LittleEndian(f.fileSize, QUAD);
    ReadBack64(f.fileSize);
  }

  /** The payload type, the code phrase, the file. */
  lemma PreLayout(p: PreMetadata)
    ensures var b := EncodePre(p); var n := |b|; var k := |p.phrase.code|;
            && n == |p.file.name| + k + 11
            && b[n - 1] == p.payload && b[n - 2] == p.phrase.codeSize && b[n - 2 - k..n - 2] == p.phrase.code
            && b[..n - 2 - k] == EncodeFile(p.file)
  {
    FileLayout(p.file);
    PhraseLayout(EncodeFile(p.file), p.phrase);
    var below := EncodeFile(p.file) + EncodePhrase(p.phrase);
    assert EncodePre(p) == below + [p.payload];
    Beneath(below, [p.payload], |below| - 1 - |p.phrase.code|, |below| - 1);
  }

  /** The payload type, the chunk size, the code phrase, the file. */
  lemma PostLayout(p: PostMetadata)
    ensures var b := EncodePost(p); var n := |b|; var k := |p.phrase.code|;
            && n == |p.file.name| + k + 19
            && b[n - 1] == p.payload && FromLittleEndian(b[n - 9..n - 1]) == p.maxChunk
            && b[n - 10] == p.phrase.codeSize && b[n - 10 - k..n - 10] == p.phrase.code
            && b[..n - 10 - k] == EncodeFile(p.file)
  {
    FileLayout(p.file);
    PhraseLayout(EncodeFile(p.file), p.phrase);
    var below := EncodeFile(p.file) + EncodePhrase(p.phrase);
    var top := LittleEndian(p.maxChunk, QUAD) + [p.payload];
    assert EncodePost(p) == below + top;
    assert top[..8] == LittleEndian(p.maxChunk, QUAD);
    ReadBack64(p.maxChunk);
    Beneath(below, top, |below| - 1 - |p.phrase.code|, |below| - 1);
    assert EncodePost(p)[|below|..|below| + 8] == top[..8];
  }

  lemma Beneath(below: seq<byte>, top: seq<byte>, i: nat, j: nat)
    requires i <= j < |below|
    ensures (below + top)[j] == below[j] && (below + top)[i..j] == below[i..j] && (below + top)[..i] == below[..i]
  {
  }
}
