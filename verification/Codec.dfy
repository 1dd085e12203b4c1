/**
  The messages of the protocol and their wire format (src/protocol/ft_msg.cpp).

  `Encode` and `Decode` say on values what the two routines compute; `Serialize` and `Parse` are
  the routines in the form of the source, appending to a vector and advancing an iterator.
 */
module Codec {
  import opened Machine

  const HASH_SIZE := 64
  const MAX_MSG_PAYLOAD_SIZE := 4096 - 128
  const MAGIC: u32 := 0x87FE7700

  const FILE_OFFER: byte := 1
  const FILE_CHUNK_REQ: byte := 2
  const FILE_CHUNK_DATA: byte := 3
  const FILE_COMPLETE: byte := 4

  datatype Body =
    | Offer(fileSize: u32, fileChunks: u32, fileHash: Digest)
    | ChunkReq(first: u32, last: u32)
    | ChunkData(idx: u32, data: Bytes)
    | Complete

  datatype Message = Message(seqNumber: u16, clientUuid: Uuid, fileName: Bytes, body: Body)

  /** What the parsing constructor fills in: the message and its length field. */
  datatype Parsed = Parsed(msgLen: u16, msg: Message)

  function TypeOf(body: Body): byte {
    match body
    case Offer(_, _, _) => FILE_OFFER
    case ChunkReq(_, _) => FILE_CHUNK_REQ
    case ChunkData(_, _) => FILE_CHUNK_DATA
    case Complete => FILE_COMPLETE
  }

  // ---------------------------------------------------------------- numbers in network byte order

  function U16(v: u16): (r: Bytes)
    ensures |r| == 2
  {
    [v / 0x100, v % 0x100]
  }

  function U32(v: u32): (r: Bytes)
    ensures |r| == 4
  {
    [v / 0x100 / 0x100 / 0x100, v / 0x100 / 0x100 % 0x100, v / 0x100 % 0x100, v % 0x100]
  }

  function GetU16(s: Bytes, at: nat): u16
    requires at + 2 <= |s|
  {
    s[at] as int * 0x100 + s[at + 1] as int
  }

  function GetU32(s: Bytes, at: nat): u32
    requires at + 4 <= |s|
  {
    ((s[at] as int * 0x100 + s[at + 1] as int) * 0x100 + s[at + 2] as int) * 0x100 + s[at + 3] as int
  }

  /** Most significant byte first. */
  lemma NetworkOrder(v: u16, w: u32)
    ensures v == U16(v)[0] as int * 0x100 + U16(v)[1] as int
    ensures w == U32(w)[0] as int * 0x100_0000 + U32(w)[1] as int * 0x1_0000 + U32(w)[2] as int * 0x100 + U32(w)[3] as int
  {
  }

  lemma ReadU16(s: Bytes, at: nat, v: u16)
    requires at + 2 <= |s| && s[at..at + 2] == U16(v)
    ensures GetU16(s, at) == v
  {
    assert s[at] == U16(v)[0] && s[at + 1] == U16(v)[1];
  }

  lemma ReadU32(s: Bytes, at: nat, v: u32)
    requires at + 4 <= |s| && s[at..at + 4] == U32(v)
    ensures GetU32(s, at) == v
  {
    assert s[at] == U32(v)[0] && s[at + 1] == U32(v)[1] && s[at + 2] == U32(v)[2] && s[at + 3] == U32(v)[3];
  }

  lemma Digits(a: byte, b: byte, c: byte, d: byte, v: int)
    requires v == ((a as int * 0x100 + b as int) * 0x100 + c as int) * 0x100 + d as int
    ensures v % 0x100 == d && v / 0x100 % 0x100 == c
    ensures v / 0x100 / 0x100 % 0x100 == b && v / 0x100 / 0x100 / 0x100 == a
  {
    assert v / 0x100 == (a as int * 0x100 + b as int) * 0x100 + c as int;
    assert v / 0x100 / 0x100 == a as int * 0x100 + b as int;
  }

  // ---------------------------------------------------------------- encoding

  function NameOnWire(name: Bytes): (r: Bytes)
    ensures r <= name && (|name| <= 255 ==> r == name) && (|name| > 255 ==> |r| == 255)
  {
    name[..Min(|name|, 255)]
  }

  function BodyBytes(body: Body): Bytes {
    match body
    case Offer(size, n, hash) => U32(size) + U32(n) + hash
    case ChunkReq(first, last) => U32(first) + U32(last)
    case ChunkData(idx, data) => U32(idx) + U16(|data| % 0x1_0000) + data
    case Complete => []
  }

  /** The fields common to all messages. */
  function Head(m: Message): Bytes {
    var name := NameOnWire(m.fileName);
    U16(m.seqNumber) + m.clientUuid + [|name|] + name
  }

  /** Everything after the length field. */
  function Payload(m: Message): Bytes {
    Head(m) + BodyBytes(m.body)
  }

  /** A chunk is sent only when it has 1 to 3968 bytes. */
  predicate Sendable(m: Message) {
    m.body.ChunkData? ==> 1 <= |m.body.data| <= MAX_MSG_PAYLOAD_SIZE
  }

  /** Envelope followed by payload; the length field holds the payload length modulo 2^16. */
  function Frame(m: Message): Bytes {
    U32(MAGIC + TypeOf(m.body)) + U16(|Payload(m)| % 0x1_0000) + Payload(m)
  }

  function Encode(m: Message): Result<Bytes> {
    if Sendable(m) then Ok(Frame(m)) else Err(LengthError)
  }

  /** The message as it survives the wire: an over-long name is cut to its first 255 bytes. */
  function OnWire(m: Message): Message {
    m.(fileName := NameOnWire(m.fileName))
  }

  // ---------------------------------------------------------------- decoding

  const PREFIX := 25  // type 4, length 2, sequence number 2, UUID 16, name length 1

  /** The bytes the parser reads for a body of this type starting at `at`; none for an unknown type. */
  function BodyEnd(buf: Bytes, at: nat): nat
    requires |buf| >= PREFIX
  {
    var t := GetU32(buf, 0) - MAGIC;
    if t == FILE_OFFER then at + 8 + HASH_SIZE
    else if t == FILE_CHUNK_REQ then at + 8
    else if t == FILE_CHUNK_DATA && at + 6 <= |buf| then at + 6 + GetU16(buf, at + 4)
    else if t == FILE_CHUNK_DATA then at + 6
    else at
  }

  /** The buffer holds every byte its own fields announce. */
  predicate Fits(buf: Bytes) {
    && |buf| >= PREFIX
    && |buf| >= PREFIX + buf[24]
    && |buf| >= BodyEnd(buf, PREFIX + buf[24])
  }

  function DecodeBody(buf: Bytes): Result<Body>
    requires Fits(buf)
  {
    var at := PREFIX + buf[24];
    var t := GetU32(buf, 0) - MAGIC;
    if t == FILE_OFFER then
      Ok(Offer(GetU32(buf, at), GetU32(buf, at + 4), buf[at + 8..at + 8 + HASH_SIZE]))
    else if t == FILE_CHUNK_REQ then
      Ok(ChunkReq(GetU32(buf, at), GetU32(buf, at + 4)))
    else if t == FILE_CHUNK_DATA then
      Ok(ChunkData(GetU32(buf, at), buf[at + 6..at + 6 + GetU16(buf, at + 4)]))
    else if t == FILE_COMPLETE then
      Ok(Complete)
    else
      Err(UnsupportedType)
  }

  function Decode(buf: Bytes): Result<Parsed>
    requires Fits(buf)
  {
    match DecodeBody(buf)
    case Err(e) => Err(e)
    case Ok(body) =>
      Ok(Parsed(GetU16(buf, 4),
                Message(GetU16(buf, 6), buf[8..24], buf[PREFIX..PREFIX + buf[24]], body)))
  }

  /** The parser accepts exactly the four message types behind the magic bytes. */
  lemma TypeOfBuffer(buf: Bytes)
    requires Fits(buf)
    ensures Decode(buf).Ok? <==> buf[..3] == [0x87, 0xFE, 0x77] && 1 <= buf[3] <= 4
    ensures Decode(buf).Err? ==> Decode(buf).error == UnsupportedType
    ensures Decode(buf).Ok? ==> match Decode(buf).value.msg.body
      case Offer(_, _, _) => buf[3] == 1
      case ChunkReq(_, _) => buf[3] == 2
      case ChunkData(_, _) => buf[3] == 3
      case Complete => buf[3] == 4
  {
    var v := GetU32(buf, 0);
    Digits(buf[0], buf[1], buf[2], buf[3], v);
    assert buf[..3] == [buf[0], buf[1], buf[2]];
  }

  // ---------------------------------------------------------------- the routines of the source

  method Serialize(m: Message) returns (r: Result<Bytes>)
    ensures r == Encode(m)
    ensures r.Err? <==> m.body.ChunkData? && (m.body.data == [] || |m.body.data| > 3968)
  {
    var tmp := U16(m.seqNumber);
    tmp := tmp + m.clientUuid;
    var filenameLen := if |m.fileName| < 255 then |m.fileName| else 255;
    tmp := tmp + [filenameLen];
    tmp := tmp + m.fileName[..filenameLen];
    assert tmp == Head(m);
    match m.body {
      case Offer(size, n, hash) =>
        tmp := tmp + U32(size);
        tmp := tmp + U32(n);
        tmp := tmp + hash;
        assert tmp == Head(m) + (U32(size) + U32(n) + hash);
      case ChunkReq(first, last) =>
        tmp := tmp + U32(first);
        tmp := tmp + U32(last);
        assert tmp == Head(m) + (U32(first) + U32(last));
      case ChunkData(idx, data) =>
        tmp := tmp + U32(idx);
        if |data| > MAX_MSG_PAYLOAD_SIZE || |data| == 0 {
          return Err(LengthError);
        }
        tmp := tmp + U16(|data| % 0x1_0000);
        tmp := tmp + data;
        assert tmp == Head(m) + (U32(idx) + U16(|data| % 0x1_0000) + data);
      case Complete =>
        assert tmp == Head(m) + [];
    }
    var out := U32(MAGIC + TypeOf(m.body));
    out := out + U16(|tmp| % 0x1_0000);
    out := out + tmp;
    r := Ok(out);
  }

  method Parse(buf: Bytes) returns (r: Result<Parsed>)
    requires Fits(buf)
    ensures r == Decode(buf)
    ensures r.Ok? <==> buf[..3] == [0x87, 0xFE, 0x77] && 1 <= buf[3] <= 4
  {
    TypeOfBuffer(buf);
    var it := 0;
    var msgType := GetU32(buf, it);
    it := it + 4;
    var msgLen := GetU16(buf, it);
    it := it + 2;
    var seqNumber := GetU16(buf, it);
    it := it + 2;
    var uuid: Bytes := [];
    var i := 0;
    while i < 16
      invariant 0 <= i <= 16 && it == 8 + i
      invariant uuid == buf[8..8 + i]
    {
      uuid := uuid + [buf[it]];
      it := it + 1;
      i := i + 1;
    }
    var nameLen := buf[it];
    it := it + 1;
    var name := buf[it..it + nameLen];
    it := it + nameLen;
    var t := msgType - MAGIC;
    var body;
    if t == FILE_OFFER {
      var size := GetU32(buf, it);
      it := it + 4;
      var n := GetU32(buf, it);
      it := it + 4;
      body := Offer(size, n, buf[it..it + HASH_SIZE]);
    } else if t == FILE_CHUNK_REQ {
      var first := GetU32(buf, it);
      it := it + 4;
      var last := GetU32(buf, it);
      body := ChunkReq(first, last);
    } else if t == FILE_CHUNK_DATA {
      var idx := GetU32(buf, it);
      it := it + 4;
      var len := GetU16(buf, it);
      it := it + 2;
      body := ChunkData(idx, buf[it..it + len]);
    } else if t == FILE_COMPLETE {
      body := Complete;
    } else {
      return Err(UnsupportedType);
    }
    r := Ok(Parsed(msgLen, Message(seqNumber, uuid, name, body)));
  }

  // ---------------------------------------------------------------- serialize and parse undo each other

  /** The 16-bit length field never truncates: the longest payload is 4248 bytes. */
  lemma PayloadFits(m: Message)
    requires Sendable(m)
    ensures 19 <= |Payload(m)| <= 4248
    ensures |Frame(m)| == 6 + |Payload(m)|
  {
    assert |Payload(m)| == 19 + |NameOnWire(m.fileName)| + |BodyBytes(m.body)|;
  }

  /** Cutting a frame-shaped concatenation back into its pieces. */
  lemma Pieces(f: Bytes, kind: Bytes, len: Bytes, head: Bytes, body: Bytes)
    requires |kind| == 4 && |len| == 2 && f == kind + len + (head + body)
    ensures f[0..4] == kind && f[4..6] == len && f[6..6 + |head|] == head && f[6 + |head|..] == body
  {
  }

  lemma HeadPieces(head: Bytes, number: Bytes, uuid: Bytes, n: byte, name: Bytes)
    requires |number| == 2 && |uuid| == 16 && head == number + uuid + [n] + name
    ensures |head| == 19 + |name| && head[18] == n
    ensures head[..2] == number && head[2..18] == uuid && head[19..] == name
  {
  }

  lemma Within(f: Bytes, head: Bytes)
    requires |f| >= 6 + |head| && |head| >= 19 && f[6..6 + |head|] == head
    ensures f[24] == head[18] && f[8..24] == head[2..18] && f[25..6 + |head|] == head[19..]
  {
    assert forall i :: 0 <= i < |head| ==> f[6 + i] == f[6..6 + |head|][i] == head[i];
    assert forall i :: 0 <= i < 16 ==> f[8..24][i] == f[6 + (2 + i)] == head[2..18][i];
    assert forall i :: 0 <= i < |head| - 19 ==> f[25..6 + |head|][i] == f[6 + (19 + i)] == head[19..][i];
  }

  lemma FieldsOf(f: Bytes, head: Bytes, m: Message)
    requires |f| >= 6 + |head| && |head| >= 19 && |Payload(m)| < 0x1_0000
    requires f[0..4] == U32(MAGIC + TypeOf(m.body)) && f[4..6] == U16(|Payload(m)|)
    requires f[6..6 + |head|] == head && head[..2] == U16(m.seqNumber)
    ensures GetU32(f, 0) == MAGIC + TypeOf(m.body)
    ensures GetU16(f, 4) == |Payload(m)|
    ensures GetU16(f, 6) == m.seqNumber
    ensures f[24] == head[18] && f[8..24] == head[2..18] && f[25..6 + |head|] == head[19..]
  {
    assert f[6..8] == head[..2];
    Within(f, head);
    ReadU32(f, 0, MAGIC + TypeOf(m.body));
    ReadU16(f, 4, |Payload(m)|);
    ReadU16(f, 6, m.seqNumber);
  }

  /** Where each field of a frame sits. */
  lemma FrameLayout(m: Message)
    requires Sendable(m)
    ensures var f := Frame(m); var n := |NameOnWire(m.fileName)|;
      && |f| == PREFIX + n + |BodyBytes(m.body)|
      && GetU32(f, 0) == MAGIC + TypeOf(m.body)
      && GetU16(f, 4) == |Payload(m)| == |f| - 6
      && GetU16(f, 6) == m.seqNumber
      && f[8..24] == m.clientUuid
      && f[24] == n
      && f[PREFIX..PREFIX + n] == NameOnWire(m.fileName)
      && f[PREFIX + n..] == BodyBytes(m.body)
  {
    PayloadFits(m);
    var f, name, head := Frame(m), NameOnWire(m.fileName), Head(m);
    Pieces(f, U32(MAGIC + TypeOf(m.body)), U16(|Payload(m)|), head, BodyBytes(m.body));
    HeadPieces(head, U16(m.seqNumber), m.clientUuid, |name|, name);
    FieldsOf(f, head, m);
  }

  /** Reading two numbers and the rest off the tail of a buffer. */
  lemma ReadTwo(buf: Bytes, at: nat, a: u32, b: u32, rest: Bytes)
    requires at <= |buf| && buf[at..] == U32(a) + U32(b) + rest
    ensures |buf| == at + 8 + |rest| && GetU32(buf, at) == a && GetU32(buf, at + 4) == b
    ensures buf[at + 8..] == rest
  {
    assert |buf[at..]| == 8 + |rest|;
    assert buf[at..at + 4] == buf[at..][..4] == U32(a);
    assert buf[at + 4..at + 8] == buf[at..][4..8] == U32(b);
    assert buf[at + 8..] == buf[at..][8..] == rest;
    ReadU32(buf, at, a);
    ReadU32(buf, at + 4, b);
  }

  lemma ReadIndexAndLength(buf: Bytes, at: nat, a: u32, b: u16, rest: Bytes)
    requires at <= |buf| && buf[at..] == U32(a) + U16(b) + rest
    ensures |buf| == at + 6 + |rest| && GetU32(buf, at) == a && GetU16(buf, at + 4) == b
    ensures buf[at + 6..] == rest
  {
    assert |buf[at..]| == 6 + |rest|;
    assert buf[at..at + 4] == buf[at..][..4] == U32(a);
    assert buf[at + 4..at + 6] == buf[at..][4..6] == U16(b);
    assert buf[at + 6..] == buf[at..][6..] == rest;
    ReadU32(buf, at, a);
    ReadU16(buf, at + 4, b);
  }

  /** The number that `n` bytes from `at` on spell, most significant byte first. */
  function Spelt(f: Bytes, at: nat, n: nat): nat
    requires at + n <= |f|
  {
    if n == 0 then 0 else Spelt(f, at, n - 1) * 0x100 + f[at + n - 1] as int
  }

  lemma SpeltIs(f: Bytes, at: nat)
    ensures at + 2 <= |f| ==> Spelt(f, at, 2) == GetU16(f, at)
    ensures at + 4 <= |f| ==> Spelt(f, at, 4) == GetU32(f, at)
  {
    if at + 2 <= |f| {
      assert Spelt(f, at, 1) == f[at] as int;
    }
    if at + 4 <= |f| {
      assert Spelt(f, at, 3) == Spelt(f, at, 2) * 0x100 + f[at + 2] as int;
    }
  }

  /** The envelope and the common fields, byte by byte. */
  lemma EnvelopeOnWire(m: Message)
    requires Sendable(m)
    ensures var f, n := Frame(m), Min(|m.fileName|, 255);
      && |f| >= 25 + n
      && f[0] == 0x87 && f[1] == 0xFE && f[2] == 0x77
      && f[3] == (match m.body case Offer(_, _, _) => 1 case ChunkReq(_, _) => 2 case ChunkData(_, _) => 3 case Complete => 4)
      && Spelt(f, 4, 2) == |f| - 6
      && Spelt(f, 6, 2) == m.seqNumber
      && f[8..24] == m.clientUuid
      && f[24] == n && f[25..25 + n] == m.fileName[..n]
  {
    FrameLayout(m);
    var f := Frame(m);
    SpeltIs(f, 4);
    SpeltIs(f, 6);
    Digits(f[0], f[1], f[2], f[3], GetU32(f, 0));
  }

  /** The fields of a body from `at` to the end of the frame, byte by byte. */
  predicate BodyAt(f: Bytes, at: nat, body: Body) {
    at <= |f| && match body
    case Offer(size, chunks, hash) =>
      |f| == at + 72 && Spelt(f, at, 4) == size && Spelt(f, at + 4, 4) == chunks && f[at + 8..] == hash
    case ChunkReq(first, last) => |f| == at + 8 && Spelt(f, at, 4) == first && Spelt(f, at + 4, 4) == last
    case ChunkData(idx, data) =>
      |f| == at + 6 + |data| && Spelt(f, at, 4) == idx && Spelt(f, at + 4, 2) == |data| && f[at + 6..] == data
    case Complete => |f| == at
  }

  lemma SpellsTwo(f: Bytes, at: nat, a: u32, b: u32, rest: Bytes)
    requires at <= |f| && f[at..] == U32(a) + U32(b) + rest
    ensures |f| == at + 8 + |rest| && Spelt(f, at, 4) == a && Spelt(f, at + 4, 4) == b && f[at + 8..] == rest
  {
    ReadTwo(f, at, a, b, rest);
    SpeltIs(f, at);
    SpeltIs(f, at + 4);
  }

  lemma SpellsIndexAndLength(f: Bytes, at: nat, a: u32, b: u16, rest: Bytes)
    requires at <= |f| && f[at..] == U32(a) + U16(b) + rest
    ensures |f| == at + 6 + |rest| && Spelt(f, at, 4) == a && Spelt(f, at + 4, 2) == b && f[at + 6..] == rest
  {
    ReadIndexAndLength(f, at, a, b, rest);
    SpeltIs(f, at);
    SpeltIs(f, at + 4);
  }

  lemma BytesOfBody(f: Bytes, at: nat, body: Body)
    requires at <= |f| && f[at..] == BodyBytes(body) && (body.ChunkData? ==> |body.data| < 0x1_0000)
    ensures BodyAt(f, at, body)
  {
    hide Spelt, U16, U32;
    match body {
      case Offer(size, n, hash) => SpellsTwo(f, at, size, n, hash);
      case ChunkReq(first, last) =>
        assert U32(first) + U32(last) == U32(first) + U32(last) + [];
        SpellsTwo(f, at, first, last, []);
      case ChunkData(idx, data) => SpellsIndexAndLength(f, at, idx, |data|, data);
      case Complete =>
    }
  }

  lemma BodyOnWire(m: Message)
    requires Sendable(m)
    ensures BodyAt(Frame(m), 25 + Min(|m.fileName|, 255), m.body)
  {
    FrameLayout(m);
    BytesOfBody(Frame(m), 25 + |NameOnWire(m.fileName)|, m.body);
    hide Frame, Payload, BodyAt, BodyBytes;
  }

  lemma DataRoundTrip(buf: Bytes, at: nat, idx: u32, data: Bytes)
    requires at <= |buf| && buf[at..] == BodyBytes(ChunkData(idx, data)) && |data| < 0x1_0000
    ensures |buf| == at + 6 + |data| && GetU32(buf, at) == idx && GetU16(buf, at + 4) == |data|
    ensures buf[at + 6..at + 6 + |data|] == data
  {
    assert |data| % 0x1_0000 == |data|;
    ReadIndexAndLength(buf, at, idx, |data|, data);
    assert buf[at + 6..at + 6 + |data|] == buf[at + 6..];
  }

  /** The body of a frame decodes to the body that was encoded. */
  lemma BodyRoundTrip(buf: Bytes, at: nat, body: Body)
    requires |buf| >= PREFIX && at == PREFIX + buf[24] <= |buf|
    requires GetU32(buf, 0) == MAGIC + TypeOf(body)
    requires buf[at..] == BodyBytes(body)
    requires body.ChunkData? ==> |body.data| < 0x1_0000
    ensures Fits(buf) && BodyEnd(buf, at) == |buf|
    ensures DecodeBody(buf) == Ok(body)
  {
    match body {
      case Offer(size, n, hash) =>
        ReadTwo(buf, at, size, n, hash);
        assert buf[at + 8..at + 8 + HASH_SIZE] == buf[at + 8..];
      case ChunkReq(first, last) =>
        assert U32(first) + U32(last) + [] == U32(first) + U32(last);
        ReadTwo(buf, at, first, last, []);
      case ChunkData(idx, data) =>
        DataRoundTrip(buf, at, idx, data);
      case Complete =>
    }
  }

  /**
    Parsing what was serialized gives back every wire field, and the parsed length is the length
    of the payload. Only an over-long file name changes.
   */
  lemma ParseUndoesSerialize(m: Message)
    requires Encode(m).Ok?
    ensures Fits(Encode(m).value)
    ensures Decode(Encode(m).value) == Ok(Parsed(|Payload(m)| % 0x1_0000, OnWire(m)))
    ensures |Payload(m)| <= 4248
    ensures |m.fileName| <= 255 ==> OnWire(m) == m
  {
    FrameLayout(m);
    PayloadFits(m);
    BodyRoundTrip(Frame(m), PREFIX + |NameOnWire(m.fileName)|, m.body);
  }

  /** A frame that could have been sent: exact length, known type, chunk length within bounds. */
  predicate ExactFrame(buf: Bytes) {
    && Fits(buf)
    && MAGIC < GetU32(buf, 0) <= MAGIC + FILE_COMPLETE
    && GetU16(buf, 4) == |buf| - 6
    && BodyEnd(buf, PREFIX + buf[24]) == |buf|
    && (GetU32(buf, 0) == MAGIC + FILE_CHUNK_DATA ==>
          1 <= GetU16(buf, PREFIX + buf[24] + 4) <= MAX_MSG_PAYLOAD_SIZE)
  }

  lemma U16Unique(s: Bytes, at: nat)
    requires at + 2 <= |s|
    ensures U16(GetU16(s, at)) == s[at..at + 2]
  {
  }

  lemma U32Unique(s: Bytes, at: nat)
    requires at + 4 <= |s|
    ensures U32(GetU32(s, at)) == s[at..at + 4]
  {
    Digits(s[at], s[at + 1], s[at + 2], s[at + 3], GetU32(s, at));
  }

  lemma TwoNumbers(buf: Bytes, at: nat)
    requires at + 8 <= |buf|
    ensures U32(GetU32(buf, at)) + U32(GetU32(buf, at + 4)) + buf[at + 8..] == buf[at..]
  {
    U32Unique(buf, at);
    U32Unique(buf, at + 4);
    assert buf[at..] == buf[at..at + 4] + buf[at + 4..at + 8] + buf[at + 8..];
  }

  lemma IndexAndLength(buf: Bytes, at: nat)
    requires at + 6 <= |buf|
    ensures U32(GetU32(buf, at)) + U16(GetU16(buf, at + 4)) + buf[at + 6..] == buf[at..]
  {
    U32Unique(buf, at);
    U16Unique(buf, at + 4);
    assert buf[at..] == buf[at..at + 4] + buf[at + 4..at + 6] + buf[at + 6..];
  }

  lemma OfferBytes(buf: Bytes, at: nat)
    requires |buf| == at + 8 + HASH_SIZE
    ensures BodyBytes(Offer(GetU32(buf, at), GetU32(buf, at + 4), buf[at + 8..at + 8 + HASH_SIZE])) == buf[at..]
  {
    TwoNumbers(buf, at);
    assert buf[at + 8..] == buf[at + 8..at + 8 + HASH_SIZE];
  }

  lemma ReqBytes(buf: Bytes, at: nat)
    requires |buf| == at + 8
    ensures BodyBytes(ChunkReq(GetU32(buf, at), GetU32(buf, at + 4))) == buf[at..]
  {
    TwoNumbers(buf, at);
    var two := U32(GetU32(buf, at)) + U32(GetU32(buf, at + 4));
    assert two + buf[at + 8..] == two;
  }

  lemma NoBytes(buf: Bytes, at: nat)
    requires |buf| == at
    ensures BodyBytes(Complete) == buf[at..]
  {
  }

  lemma DataBytes(buf: Bytes, at: nat)
    requires at + 6 <= |buf| == at + 6 + GetU16(buf, at + 4)
    ensures BodyBytes(ChunkData(GetU32(buf, at), buf[at + 6..at + 6 + GetU16(buf, at + 4)])) == buf[at..]
  {
    IndexAndLength(buf, at);
    var n := GetU16(buf, at + 4);
    var data := buf[at + 6..at + 6 + n];
    assert buf[at + 6..] == data && |data| % 0x1_0000 == n;
  }

  lemma BodyBytesOfDecoded(buf: Bytes)
    requires ExactFrame(buf)
    ensures DecodeBody(buf).Ok?
    ensures BodyBytes(DecodeBody(buf).value) == buf[PREFIX + buf[24]..]
  {
    hide BodyBytes;
    var at := PREFIX + buf[24];
    var t := GetU32(buf, 0) - MAGIC;
    if t == FILE_OFFER {
      OfferBytes(buf, at);
    } else if t == FILE_CHUNK_REQ {
      ReqBytes(buf, at);
    } else if t == FILE_CHUNK_DATA {
      DataBytes(buf, at);
    } else {
      NoBytes(buf, at);
    }
  }

  lemma TypeOfDecoded(buf: Bytes)
    requires ExactFrame(buf)
    ensures DecodeBody(buf).Ok?
    ensures MAGIC + TypeOf(DecodeBody(buf).value) == GetU32(buf, 0)
  {
  }

  lemma HeadOfDecoded(buf: Bytes, m: Message)
    requires Fits(buf) && m.seqNumber == GetU16(buf, 6) && m.clientUuid == buf[8..24]
    requires m.fileName == buf[PREFIX..PREFIX + buf[24]]
    ensures Head(m) == buf[6..PREFIX + buf[24]]
  {
    U16Unique(buf, 6);
    var n := buf[24];
    assert NameOnWire(m.fileName) == m.fileName;
    assert buf[6..25 + n] == buf[6..8] + buf[8..24] + [n] + buf[25..25 + n];
  }

  lemma Join(whole: Bytes, front: Bytes, back: Bytes)
    requires |front| <= |whole| && whole[..|front|] == front && whole[|front|..] == back
    ensures whole == front + back
  {
  }

  lemma Reassemble(buf: Bytes, m: Message, at: nat)
    requires PREFIX <= at <= |buf| && GetU16(buf, 4) == |buf| - 6
    requires Head(m) == buf[6..at] && BodyBytes(m.body) == buf[at..]
    requires GetU32(buf, 0) == MAGIC + TypeOf(m.body)
    ensures Frame(m) == buf
  {
    hide BodyBytes, Head, U16, U32, GetU16, GetU32;
    Join(buf[6..], buf[6..at], buf[at..]);
    U32Unique(buf, 0);
    U16Unique(buf, 4);
    Join(buf[..6], buf[..4], buf[4..6]);
    Join(buf, buf[..6], buf[6..]);
  }

  /** Serializing a parsed exact frame gives back the same bytes. */
  lemma SerializeUndoesParse(buf: Bytes)
    requires ExactFrame(buf)
    ensures Decode(buf).Ok?
    ensures Encode(Decode(buf).value.msg) == Ok(buf)
  {
    BodyBytesOfDecoded(buf);
    var m := Decode(buf).value.msg;
    TypeOfDecoded(buf);
    HeadOfDecoded(buf, m);
    Reassemble(buf, m, PREFIX + buf[24]);
  }
}
