/** The structs of ppcommon.hpp and their operators `<<` and `>>`.
    Encoding pushes the fields in one order and decoding pops them in the mirrored order. */
module Codec {
  import opened Bytes
  import opened NetMessage

  // Message types
  const ACCEPT: uint32 := 0
  const REJECT: uint32 := 1
  const SUCCESS: uint32 := 2
  const ABORT: uint32 := 3
  const SEND: uint32 := 4
  const REQUEST_RECEIVE: uint32 := 5
  const FINISH_RECEIVE: uint32 := 6
  const FAILED_RECEIVE: uint32 := 7
  const RECEIVE: uint32 := 8
  const CHUNK: uint32 := 9
  const FINAL_CHUNK: uint32 := 10

  const DIGEST_LENGTH: nat := 32

  type Digest = bs: seq<byte> | |bs| == DIGEST_LENGTH witness seq(DIGEST_LENGTH, _ => 0)

  datatype CodePhrase = CodePhrase(codeSize: byte, code: seq<byte>) {
    predicate Sized() { codeSize == |code| }
  }

  datatype FileData = FileData(fileSize: uint64, nameSize: byte, name: seq<byte>) {
    predicate Sized() { nameSize == |name| }
  }

  datatype PreMetadata = PreMetadata(payload: byte, phrase: CodePhrase, file: FileData) {
    predicate Sized() { phrase.Sized() && file.Sized() }
  }

  datatype PostMetadata =
    PostMetadata(payload: byte, maxChunk: uint64, phrase: CodePhrase, file: FileData) {
    predicate Sized() { phrase.Sized() && file.Sized() }
  }

  datatype ChunkData = ChunkData(hash: Digest, data: seq<byte>)

  /** A decoded value and the body that is left; Short stands for a body with too few bytes,
      on which the program reads out of bounds. */
  datatype Popped<+T> = Short | Popped(value: T, rest: seq<byte>) {
    predicate IsFailure() { Short? }
    function PropagateFailure<U>(): Popped<U> requires Short? { Short }
    function Extract(): (T, seq<byte>) requires Popped? { (value, rest) }
  }

  // ---------- the encodings ----------

  function EncodePhrase(c: CodePhrase): seq<byte> {
    c.code + [c.codeSize]
  }

  function EncodeFile(f: FileData): seq<byte> {
    f.name + [f.nameSize] + LittleEndian(f.fileSize, QUAD)
  }

  function EncodePre(p: PreMetadata): seq<byte> {
    EncodeFile(p.file) + EncodePhrase(p.phrase) + [p.payload]
  }

  function EncodePost(p: PostMetadata): seq<byte> {
    EncodeFile(p.file) + EncodePhrase(p.phrase) + LittleEndian(p.maxChunk, QUAD) + [p.payload]
  }

  function EncodeChunk(c: ChunkData): seq<byte> {
    c.data + c.hash
  }

  /** An empty struct occupies one byte, whose value is never read. */
  const EMPTY: seq<byte> := [0]

  // ---------- the decodings ----------

  function PopBytes(b: seq<byte>, n: nat): Popped<seq<byte>> {
    if n <= |b| then Popped(b[|b| - n..], b[..|b| - n]) else Short
  }

  function PopByte(b: seq<byte>): Popped<byte> {
    if |b| >= 1 then Popped(b[|b| - 1], b[..|b| - 1]) else Short
  }

  function PopUint64(b: seq<byte>): Popped<uint64> {
    PowersOf256();
    if |b| >= 8 then Popped(FromLittleEndian(b[|b| - 8..]), b[..|b| - 8]) else Short
  }

  /** A string resized to n bytes and then filled from the body. */
  function PopString(b: seq<byte>, n: nat): Popped<seq<byte>> {
    Popped(Refill(Zeros(n), b), Below(n, b))
  }

  function DecodePhrase(b: seq<byte>): Popped<CodePhrase> {
    var (size, b1) :- PopByte(b);
    var (code, b2) :- PopString(b1, size);
    Popped(CodePhrase(size, code), b2)
  }

  function DecodeFile(b: seq<byte>): Popped<FileData> {
    var (size, b1) :- PopUint64(b);
    var (nameSize, b2) :- PopByte(b1);
    var (name, b3) :- PopString(b2, nameSize);
    Popped(FileData(size, nameSize, name), b3)
  }

  function DecodePre(b: seq<byte>): Popped<PreMetadata> {
    var (payload, b1) :- PopByte(b);
    var (phrase, b2) :- DecodePhrase(b1);
    var (file, b3) :- DecodeFile(b2);
    Popped(PreMetadata(payload, phrase, file), b3)
  }

  function DecodePost(b: seq<byte>): Popped<PostMetadata> {
    var (payload, b1) :- PopByte(b);
    var (maxChunk, b2) :- PopUint64(b1);
    var (phrase, b3) :- DecodePhrase(b2);
    var (file, b4) :- DecodeFile(b3);
    Popped(PostMetadata(payload, maxChunk, phrase, file), b4)
  }

  /** A chunk takes the digest from the end and everything that is left as data. */
  function DecodeChunk(b: seq<byte>): Popped<ChunkData> {
    var (hash, b1) :- PopBytes(b, DIGEST_LENGTH);
    var (data, b2) :- PopString(b1, |b1|);
    Popped(ChunkData(hash, data), b2)
  }

  // ---------- stack discipline ----------

  lemma PoppedByte(prefix: seq<byte>, x: byte)
    ensures PopByte(prefix + [x]) == Popped(x, prefix)
  {
    assert (prefix + [x])[..|prefix|] == prefix;
  }

  lemma PoppedUint64(prefix: seq<byte>, n: uint64)
    ensures PopUint64(prefix + LittleEndian(n, QUAD)) == Popped(n, prefix)
  {
    PushThenPop(prefix, LittleEndian(n, QUAD), Zeros(8));
    var b := prefix + LittleEndian(n, QUAD);
    assert b[|b| - 8..] == LittleEndian(n, QUAD) && b[..|b| - 8] == prefix;
    ReadBack64(n);
  }

  lemma PoppedString(prefix: seq<byte>, s: seq<byte>)
    ensures PopString(prefix + s, |s|) == Popped(s, prefix)
  {
    PushThenPop(prefix, s, Zeros(|s|));
  }

  /** A code phrase survives exactly when its size byte is its length. */
  lemma PhraseRoundTrip(prefix: seq<byte>, c: CodePhrase)
    ensures DecodePhrase(prefix + EncodePhrase(c)) == Popped(c, prefix) <==> c.Sized()
  {
    var b := prefix + EncodePhrase(c);
    assert b == (prefix + c.code) + [c.codeSize];
    PoppedByte(prefix + c.code, c.codeSize);
    PoppedString(prefix, c.code);
  }

  /** File data survives exactly when its name-size byte is the length of the name. */
  lemma FileRoundTrip(prefix: seq<byte>, f: FileData)
    ensures DecodeFile(prefix + EncodeFile(f)) == Popped(f, prefix) <==> f.Sized()
  {
    var b := prefix + EncodeFile(f);
    assert b == (prefix + f.name + [f.nameSize]) + LittleEndian(f.fileSize, QUAD);
    PoppedUint64(prefix + f.name + [f.nameSize], f.fileSize);
    PoppedByte(prefix + f.name, f.nameSize);
    PoppedString(prefix, f.name);
  }

  lemma PreRoundTrip(prefix: seq<byte>, p: PreMetadata)
    requires p.phrase.Sized()
    ensures DecodePre(prefix + EncodePre(p)).Popped?
    ensures DecodePre(prefix + EncodePre(p)).value.phrase == p.phrase
    ensures DecodePre(prefix + EncodePre(p)) == Popped(p, prefix) <==> p.file.Sized()
  {
    var below := prefix + EncodeFile(p.file);
    assert prefix + EncodePre(p) == (below + EncodePhrase(p.phrase)) + [p.payload];
    PoppedByte(below + EncodePhrase(p.phrase), p.payload);
    PhraseRoundTrip(below, p.phrase);
    FileRoundTrip(prefix, p.file);
    FileLongEnough(prefix, p.file);
  }

  lemma FileLongEnough(prefix: seq<byte>, f: FileData)
    ensures DecodeFile(prefix + EncodeFile(f)).Popped?
  {
    assert |prefix + EncodeFile(f)| >= 9;
  }

  lemma PostRoundTrip(prefix: seq<byte>, p: PostMetadata)
    requires p.phrase.Sized()
    ensures DecodePost(prefix + EncodePost(p)) == Popped(p, prefix) <==> p.file.Sized()
  {
    var below := prefix + EncodeFile(p.file);
    var b := prefix + EncodePost(p);
    assert b == (below + EncodePhrase(p.phrase) + LittleEndian(p.maxChunk, QUAD)) + [p.payload];
    PoppedByte(below + EncodePhrase(p.phrase) + LittleEndian(p.maxChunk, QUAD), p.payload);
    PoppedUint64(below + EncodePhrase(p.phrase), p.maxChunk);
    PhraseRoundTrip(below, p.phrase);
    FileRoundTrip(prefix, p.file);
    FileLongEnough(prefix, p.file);
  }

  /** Whatever bytes arrive, the strings that come out have the length their size bytes say,
      so an Accept built from them is read back exactly. */
  lemma DecodedIsSized(b: seq<byte>, maxChunk: uint64)
    requires DecodePre(b).Popped?
    ensures DecodePre(b).value.Sized()
    ensures var pre := DecodePre(b).value;
            var post := PostMetadata(pre.payload, maxChunk, pre.phrase, pre.file);
            DecodePost(EncodePost(post)) == Popped(post, [])
  {
    var pre := DecodePre(b).value;
    var post := PostMetadata(pre.payload, maxChunk, pre.phrase, pre.file);
    PostRoundTrip([], post);
    assert [] + EncodePost(post) == EncodePost(post);
  }

  /** A request that leaves the file size and the name size uninitialised still carries the code. */
  lemma RequestKeepsCode(payload: byte, phrase: CodePhrase, junkSize: uint64, junkNameSize: byte)
    requires phrase.Sized()
    ensures var request := PreMetadata(payload, phrase, FileData(junkSize, junkNameSize, []));
            DecodePre(EncodePre(request)) ==
            Popped(PreMetadata(payload, phrase, FileData(junkSize, junkNameSize, Zeros(junkNameSize))), [])
  {
    var file := FileData(junkSize, junkNameSize, []);
    var request := PreMetadata(payload, phrase, file);
    assert EncodePre(request) == (EncodeFile(file) + EncodePhrase(phrase)) + [payload];
    PoppedByte(EncodeFile(file) + EncodePhrase(phrase), payload);
    PhraseRoundTrip(EncodeFile(file), phrase);
    assert EncodeFile(file) == [junkNameSize] + LittleEndian(junkSize, QUAD);
    PoppedUint64([junkNameSize], junkSize);
    PoppedByte([], junkNameSize);
    assert [] + [junkNameSize] == [junkNameSize];
    assert Refill(Zeros(junkNameSize), []) == Zeros(junkNameSize);
  }

  /** A chunk absorbs whatever lies below it, so it survives exactly from an empty prefix. */
  lemma ChunkRoundTrip(prefix: seq<byte>, c: ChunkData)
    ensures DecodeChunk(prefix + EncodeChunk(c)) == Popped(ChunkData(c.hash, prefix + c.data), [])
    ensures DecodeChunk(prefix + EncodeChunk(c)) == Popped(c, prefix) <==> prefix == []
  {
    var b := prefix + EncodeChunk(c);
    var data := prefix + c.data;
    assert b == data + c.hash;
    assert b[|b| - DIGEST_LENGTH..] == c.hash && b[..|b| - DIGEST_LENGTH] == data;
    assert [] + data == data;
    PoppedString([], data);
  }

  // ---------- the operators on a message taken by reference ----------

  method PushPhrase(msg: MessageBuffer, data: CodePhrase)
    requires msg.Valid()
    modifies msg
    ensures msg.Valid() && msg.id == old(msg.id) && msg.body == old(msg.body) + EncodePhrase(data)
  {
    msg.PushContainer(data.code);
    msg.PushValue([data.codeSize]);
  }

  method PopPhrase(msg: MessageBuffer) returns (data: CodePhrase)
    requires msg.Valid() && DecodePhrase(msg.body).Popped?
    modifies msg
    ensures msg.Valid() && msg.id == old(msg.id)
    ensures Popped(data, msg.body) == DecodePhrase(old(msg.body))
  {
    var size := msg.PopValue(1);
    assert old(msg.body)[..|old(msg.body)| - 1] == msg.body;
    var code := msg.PopContainer(Zeros(size[0]));
    data := CodePhrase(size[0], code);
  }

  method PushFile(msg: MessageBuffer, data: FileData)
    requires msg.Valid()
    modifies msg
    ensures msg.Valid() && msg.id == old(msg.id) && msg.body == old(msg.body) + EncodeFile(data)
  {
    msg.PushContainer(data.name);
    msg.PushValue([data.nameSize]);
    msg.PushValue(LittleEndian(data.fileSize, QUAD));
  }

  method PopFile(msg: MessageBuffer) returns (data: FileData)
    requires msg.Valid() && DecodeFile(msg.body).Popped?
    modifies msg
    ensures msg.Valid() && msg.id == old(msg.id)
    ensures Popped(data, msg.body) == DecodeFile(old(msg.body))
  {
    ghost var b := msg.body;
    var size := msg.PopValue(8);
    assert msg.body == b[..|b| - 8] && size == b[|b| - 8..];
    ghost var b1 := msg.body;
    var nameSize := msg.PopValue(1);
    assert msg.body == b1[..|b1| - 1] && nameSize[0] == b1[|b1| - 1];
    var name := msg.PopContainer(Zeros(nameSize[0]));
    PowersOf256();
    data := FileData(FromLittleEndian(size), nameSize[0], name);
  }

  method PushPre(msg: MessageBuffer, data: PreMetadata)
    requires msg.Valid()
    modifies msg
    ensures msg.Valid() && msg.id == old(msg.id) && msg.body == old(msg.body) + EncodePre(data)
  {
    PushFile(msg, data.file);
    PushPhrase(msg, data.phrase);
    msg.PushValue([data.payload]);
  }

  method PopPre(msg: MessageBuffer) returns (data: PreMetadata)
    requires msg.Valid() && DecodePre(msg.body).Popped?
    modifies msg
    ensures msg.Valid() && msg.id == old(msg.id)
    ensures Popped(data, msg.body) == DecodePre(old(msg.body))
  {
    ghost var b := msg.body;
    var payload := msg.PopValue(1);
    assert msg.body == b[..|b| - 1] && payload[0] == b[|b| - 1];
    var phrase := PopPhrase(msg);
    var file := PopFile(msg);
    data := PreMetadata(payload[0], phrase, file);
  }

  method PushPost(msg: MessageBuffer, data: PostMetadata)
    requires msg.Valid()
    modifies msg
    ensures msg.Valid() && msg.id == old(msg.id) && msg.body == old(msg.body) + EncodePost(data)
  {
    PushFile(msg, data.file);
    PushPhrase(msg, data.phrase);
    msg.PushValue(LittleEndian(data.maxChunk, QUAD));
    msg.PushValue([data.payload]);
  }

  method PopPost(msg: MessageBuffer) returns (data: PostMetadata)
    requires msg.Valid() && DecodePost(msg.body).Popped?
    modifies msg
    ensures msg.Valid() && msg.id == old(msg.id)
    ensures Popped(data, msg.body) == DecodePost(old(msg.body))
  {
    ghost var b := msg.body;
    var payload := msg.PopValue(1);
    assert msg.body == b[..|b| - 1] && payload[0] == b[|b| - 1];
    ghost var b1 := msg.body;
    var maxChunk := msg.PopValue(8);
    assert msg.body == b1[..|b1| - 8] && maxChunk == b1[|b1| - 8..];
    PowersOf256();
    var phrase := PopPhrase(msg);
    var file := PopFile(msg);
    data := PostMetadata(payload[0], FromLittleEndian(maxChunk), phrase, file);
  }

  method PushChunk(msg: MessageBuffer, data: ChunkData)
    requires msg.Valid()
    modifies msg
    ensures msg.Valid() && msg.id == old(msg.id) && msg.body == old(msg.body) + EncodeChunk(data)
  {
    msg.PushContainer(data.data);
    msg.PushValue(data.hash);
  }

  method PopChunk(msg: MessageBuffer) returns (data: ChunkData)
    requires msg.Valid() && DecodeChunk(msg.body).Popped?
    modifies msg
    ensures msg.Valid() && msg.id == old(msg.id)
    ensures Popped(data, msg.body) == DecodeChunk(old(msg.body))
  {
    ghost var b := msg.body;
    var hash := msg.PopValue(DIGEST_LENGTH);
    assert msg.body == b[..|b| - DIGEST_LENGTH] && hash == b[|b| - DIGEST_LENGTH..];
    var content := msg.PopContainer(Zeros(|msg.body|));
    data := ChunkData(hash, content);
  }

  // ---------- encode and decode ----------

  method EncodedPre(id: uint32, data: PreMetadata) returns (msg: Message)
    ensures msg == Message(id, EncodePre(data))
  {
    var buffer := new MessageBuffer(id);
    PushPre(buffer, data);
    assert [] + EncodePre(data) == EncodePre(data);
    return Message(buffer.id, buffer.body);
  }

  method EncodedPost(id: uint32, data: PostMetadata) returns (msg: Message)
    ensures msg == Message(id, EncodePost(data))
  {
    var buffer := new MessageBuffer(id);
    PushPost(buffer, data);
    assert [] + EncodePost(data) == EncodePost(data);
    return Message(buffer.id, buffer.body);
  }

  method EncodedPhrase(id: uint32, data: CodePhrase) returns (msg: Message)
    ensures msg == Message(id, EncodePhrase(data))
  {
    var buffer := new MessageBuffer(id);
    PushPhrase(buffer, data);
    assert [] + EncodePhrase(data) == EncodePhrase(data);
    return Message(buffer.id, buffer.body);
  }

  method EncodedEmpty(id: uint32) returns (msg: Message)
    ensures msg == Message(id, EMPTY)
  {
    var buffer := new MessageBuffer(id);
    buffer.PushValue(EMPTY);
    assert [] + EMPTY == EMPTY;
    return Message(buffer.id, buffer.body);
  }

  /** What one end encodes the other decodes: the Accept that a sender or a receiver gets. */
  method DecodedPost(msg: Message) returns (data: PostMetadata)
    requires DecodePost(msg.body).Popped?
    ensures data == DecodePost(msg.body).value
  {
    var buffer := new MessageBuffer.Received(msg);
    data := PopPost(buffer);
  }
}
