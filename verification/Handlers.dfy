/**
  The message builders (src/protocol/ft_msg_fctry.cpp) and the request handlers of the server
  (src/ft_server.cpp:105-186) and of the client (src/ft_client.cpp:184-248).
 */
module Handlers {
  import opened Machine
  import opened Codec
  import opened Metadata
  import opened Storage
  import Framer

  /** A file on the client: its name, contents and hash. */
  datatype LocalFile = LocalFile(name: Bytes, content: Bytes, hash: Digest)

  // ---------------------------------------------------------------- message builders

  function BuildOffer(number: nat, uuid: Uuid, file: LocalFile): Message {
    Message(Narrow16(number), uuid, file.name,
            Offer(Narrow32(|file.content|), Narrow32(NumChunks(|file.content|)), file.hash))
  }

  /** The chunk index is a `uint16_t` parameter: a larger index is reduced modulo 65536. */
  function BuildChunkReq(number: nat, uuid: Uuid, name: Bytes, first: nat, last: nat): Message {
    Message(Narrow16(number), uuid, name, ChunkReq(Narrow16(first), Narrow16(last)))
  }

  function BuildChunkData(number: nat, uuid: Uuid, file: LocalFile, chunk: nat): Result<Message> {
    var idx := Narrow16(chunk);
    match GetChunk(file.content, idx)
    case Err(e) => Err(e)
    case Ok(data) => Ok(Message(Narrow16(number), uuid, file.name, ChunkData(idx, data)))
  }

  function BuildComplete(number: nat, uuid: Uuid, name: Bytes): Message {
    Message(Narrow16(number), uuid, name, Complete)
  }

  // ---------------------------------------------------------------- the server

  function KeyOf(m: Message): Key {
    Key(m.clientUuid, m.fileName)
  }

  /** What the server answers once the file is open and any data of the message is saved. */
  function Answer(h: HashFunction, d: Files, size: u64, hash: Digest, m: Message): Message {
    if IsComplete(h, d, size, hash) then BuildComplete(m.seqNumber, m.clientUuid, m.fileName)
    else BuildChunkReq(m.seqNumber + 1, m.clientUuid, m.fileName, NextMissing(d.meta, size, 0), UINT16_MAX)
  }

  datatype ServerResult = ServerResult(files: Files, reply: Option<Message>)

  /** The effect of one message on the files of its upload, and the reply. */
  function ServerHandle(h: HashFunction, d: Files, m: Message): ServerResult {
    match m.body
    case Offer(size, _, hash) =>
      var d1 := Open(d, size, hash);
      ServerResult(d1, Some(Answer(h, d1, size, hash, m)))
    case ChunkData(idx, data) =>
      var header := ReadHeader(d.meta);
      if header.chunkSize == 0 then ServerResult(d, None)
      else
        var d1 := Save(Open(d, header.size, header.hash), header.size, idx, data);
        ServerResult(d1, Some(Answer(h, d1, header.size, header.hash, m)))
    case _ => ServerResult(d, None)
  }

  /** What the answer means: completion exactly if no chunk is missing and the contents hash as announced. */
  lemma AnswerMeans(h: HashFunction, d: Files, size: u64, hash: Digest, m: Message)
    requires d.meta.Some? && |d.meta.value| >= HEADER_SIZE + BitmapSize(size) && d.target.Some?
    ensures var x := Answer(h, d, size, hash, m);
      && KeyOf(x) == KeyOf(m)
      && (x.body.Complete? <==> (forall i: nat :: i < NumChunks(size) ==> Marked(d.meta.value, i)) && h(d.target.value) == hash)
      && (x.body.Complete? ==> x.seqNumber == m.seqNumber)
      && (!x.body.Complete? ==> x.seqNumber == (m.seqNumber + 1) % 65536)
      && (!x.body.Complete? ==>
            exists next: u64 :: IsLeastMissing(d.meta.value, NumChunks(size), 0, next) && x.body == ChunkReq(next % 65536, 65535))
  {
    NextMissingIsLeast(d.meta.value, size, 0);
    hide Marked, NextMissing, BitmapSize;
  }

  /** Which messages the server replies to, and that a completion is never sent for contents with another hash. */
  lemma ServerReplies(h: HashFunction, d: Files, m: Message)
    ensures var r := ServerHandle(h, d, m);
      && (r.reply.Some? <==> m.body.Offer? || (m.body.ChunkData? && ReadHeader(d.meta).chunkSize > 0))
      && (r.reply.None? ==> r.files == d)
      && (r.reply.Some? && r.reply.value.body.Complete? ==>
            r.files.target.Some? && h(r.files.target.value) == (if m.body.Offer? then m.body.fileHash else ReadHeader(d.meta).hash))
  {
    hide ReadHeader, NextMissing, Save;
  }

  // ---------------------------------------------------------------- what goes over the connection

  /** Received on a new connection, the bytes are exactly the one message `x`, and nothing is left over. */
  ghost predicate Arrives(bytes: Bytes, x: Message) {
    var fed := Framer.Feed(Framer.EMPTY, bytes);
    && fed.state == Framer.EMPTY && |fed.delivered| == 1 && Fits(fed.delivered[0])
    && Decode(fed.delivered[0]).Ok? && Decode(fed.delivered[0]).value.msg == OnWire(x)
  }

  lemma FrameArrives(x: Message)
    requires Sendable(x)
    ensures Arrives(Frame(x), x)
  {
    Framer.EncodedIsFrame(x);
    Framer.FeedFrame(Frame(x));
    ParseUndoesSerialize(x);
    hide Framer.Feed, Frame, Fits, Decode, OnWire;
  }

  /** The reply arrives if there is one and a connection; otherwise nothing is sent. */
  ghost predicate Delivers(reply: Option<Message>, connected: bool, sent: Option<Bytes>) {
    if reply.Some? && connected then sent.Some? && Arrives(sent.value, reply.value) else sent.None?
  }

  // ---------------------------------------------------------------- the server's routine

  /** Completion message or request for the next missing chunk: the tail of both server cases. */
  method Respond(file: FileRemote, h: HashFunction, m: Message) returns (response: Message)
    requires file.Valid()
    ensures response == Answer(h, View(file.fs.files, file.key), file.size, file.hash, m)
  {
    hide NextMissing, View;
    var done := file.IsCompleteNow(h);
    if done {
      response := BuildComplete(m.seqNumber, m.clientUuid, m.fileName);
    } else {
      var idx := file.GetNextMissingChunk();
      response := BuildChunkReq(m.seqNumber + 1, m.clientUuid, m.fileName, idx, UINT16_MAX);
    }
  }

  lemma OpenHasTarget(files: map<Path, Bytes>, k: Key, d: Files, size: u64, hash: Digest)
    ensures Open(d, size, hash).target.Some?
    ensures View(files, k) == Open(d, size, hash) ==> TargetPath(k) in files
  {
  }

  lemma RepliesAreSendable(h: HashFunction, d: Files, m: Message)
    ensures var r := ServerHandle(h, d, m).reply; r.Some? ==> Sendable(r.value)
  {
  }

  method ServerHandleRequest(fs: FileSystem, h: HashFunction, m: Message, connected: bool) returns (sent: Option<Bytes>)
    modifies fs
    ensures var r := ServerHandle(h, View(old(fs.files), KeyOf(m)), m);
      && fs.files == Put(old(fs.files), KeyOf(m), r.files)
      && Delivers(r.reply, connected, sent)
  {
    hide Put, Save, Arrives, Answer, Frame, ReadHeader, CreateMeta, CreateTarget, Lookup;
    var key := KeyOf(m);
    PutView(fs.files, key, View(fs.files, key));
    var response: Option<Message> := None;
    match m.body {
      case Offer(size, _, hash) =>
        var file := new FileRemote(fs, key, size, hash);
        var reply := Respond(file, h, m);
        response := Some(reply);
      case ChunkData(idx, data) =>
        var header := FileMetadata.ReadHeaderOf(fs, key);
        if header.chunkSize > 0 {
          var file := new FileRemote(fs, key, header.size, header.hash);
          ghost var d := View(fs.files, key);
          OpenHasTarget(fs.files, key, View(old(fs.files), key), header.size, header.hash);
          file.SaveChunk(idx, data);
          PutPut(old(fs.files), key, d, View(fs.files, key));
          var reply := Respond(file, h, m);
          response := Some(reply);
        }
      case _ =>
    }
    RepliesAreSendable(h, View(old(fs.files), key), m);
    sent := None;
    if response.Some? && connected {
      var buf := Serialize(response.value);
      FrameArrives(response.value);
      sent := Some(buf.value);
    }
  }

  // ---------------------------------------------------------------- the client

  datatype ClientResult = ClientResult(files: map<Bytes, LocalFile>, reply: Result<Option<Message>>)

  /** The effect of one message on the offered files, and the reply or the exception. */
  function ClientHandle(uuid: Uuid, files: map<Bytes, LocalFile>, m: Message): ClientResult {
    if m.clientUuid != uuid || m.fileName !in files then ClientResult(files, Ok(None))
    else match m.body
      case ChunkReq(first, _) =>
        (match BuildChunkData(m.seqNumber, uuid, files[m.fileName], first)
         case Err(e) => ClientResult(files, Err(e))
         case Ok(r) => ClientResult(files, if Sendable(r) then Ok(Some(r)) else Err(LengthError)))
      case Complete => ClientResult(files - {m.fileName}, Ok(None))
      case _ => ClientResult(files, Ok(None))
  }

  /**
    The client answers exactly the requests for an existing chunk of a file it still offers under its
    own UUID, and the answer is that chunk with the number of the request.
   */
  lemma ClientAnswersIff(uuid: Uuid, files: map<Bytes, LocalFile>, m: Message)
    ensures var r := ClientHandle(uuid, files, m).reply;
      (r.Ok? && r.value.Some?) <==>
        && m.clientUuid == uuid && m.fileName in files && m.body.ChunkReq?
        && Narrow16(m.body.first) < NumChunks(|files[m.fileName].content|)
    ensures var r := ClientHandle(uuid, files, m).reply;
      r.Ok? && r.value.Some? ==>
        && var (file, i) := (files[m.fileName], Narrow16(m.body.first));
        && i * CHUNK_SIZE < |file.content|
        && r.value.value == Message(m.seqNumber, uuid, file.name,
             ChunkData(i, file.content[i * CHUNK_SIZE..i * CHUNK_SIZE + ChunkLen(|file.content|, i)]))
  {
    if m.fileName in files {
      ChunksTile(files[m.fileName].content);
    }
  }

  /** Only the file the message names can leave the map, and it does so exactly for a completion under the own UUID. */
  lemma OthersStayOffered(uuid: Uuid, files: map<Bytes, LocalFile>, m: Message)
    ensures var r := ClientHandle(uuid, files, m);
      && (forall n :: n != m.fileName ==> (n in r.files <==> n in files))
      && (forall n :: n in r.files ==> n in files && r.files[n] == files[n])
      && (m.fileName in files && m.fileName !in r.files <==> m.fileName in files && m.clientUuid == uuid && m.body.Complete?)
  {
    hide BuildChunkData;
  }

  /** The exceptions: a request beyond the end of the file, and one for the empty chunk exactly at its end. */
  lemma ClientThrowsIff(uuid: Uuid, files: map<Bytes, LocalFile>, m: Message)
    ensures var r := ClientHandle(uuid, files, m).reply;
      var asked := m.clientUuid == uuid && m.fileName in files && m.body.ChunkReq?;
      && (r.Err? && r.error == RangeError <==>
            asked && Narrow16(m.body.first) * 3968 > |files[m.fileName].content|)
      && (r.Err? && r.error == LengthError <==>
            asked && Narrow16(m.body.first) * 3968 == |files[m.fileName].content|)
      && (r.Err? ==> r.error == RangeError || r.error == LengthError)
  {
    if m.fileName in files {
      ChunksTile(files[m.fileName].content);
    }
  }

  class ClientRequestHandler {
    const uuid: Uuid
    var files: map<Bytes, LocalFile>

    constructor (uuid: Uuid)
      ensures this.uuid == uuid && files == map[]
    {
      this.uuid, this.files := uuid, map[];
    }

    /** Registers the file unless its name is registered already, and offers it. */
    method OfferFile(file: LocalFile) returns (sent: Bytes)
      modifies this
      ensures files == if file.name in old(files) then old(files) else old(files)[file.name := file]
      ensures Arrives(sent, BuildOffer(1, uuid, file))
    {
      FrameArrives(BuildOffer(1, uuid, file));
      hide Arrives, Frame;
      if file.name !in files {
        files := files[file.name := file];
      }
      var buf := Serialize(BuildOffer(1, uuid, file));
      sent := buf.value;
    }

    /**
      Without a connection nothing is serialized, so an empty chunk is an error only when there is one.
     */
    method HandleRequest(m: Message, connected: bool) returns (sent: Result<Option<Bytes>>)
      modifies this
      ensures var r := ClientHandle(uuid, old(files), m);
        && files == r.files
        && (r.reply.Ok? ==> sent.Ok? && Delivers(r.reply.value, connected, sent.value))
        && (r.reply.Err? ==> sent == if connected || r.reply.error != LengthError then Err(r.reply.error) else Ok(None))
      ensures forall n :: n != m.fileName ==> (n in files <==> n in old(files))
      ensures forall n :: n in files ==> n in old(files) && files[n] == old(files)[n]
      ensures m.fileName in old(files) && m.fileName !in files <==> m.fileName in old(files) && m.clientUuid == uuid && m.body.Complete?
    {
      OthersStayOffered(uuid, files, m);
      hide Arrives, Frame;
      if m.clientUuid != uuid || m.fileName !in files {
        return Ok(None);
      }
      var file := files[m.fileName];
      var response: Option<Message> := None;
      match m.body {
        case ChunkReq(first, _) =>
          var built := BuildChunkData(m.seqNumber, uuid, file, first);
          if built.Err? {
            return Err(built.error);
          }
          response := Some(built.value);
        case Complete =>
          files := files - {m.fileName};
        case _ =>
      }
      sent := Ok(None);
      if response.Some? && connected {
        var buf := Serialize(response.value);
        if buf.Err? {
          return Err(buf.error);
        }
        FrameArrives(response.value);
        sent := Ok(Some(buf.value));
      }
    }

    method UploadsCompleted() returns (done: bool)
      ensures done <==> forall name :: name !in files
    {
      done := |files| == 0;
      if !done {
        var name :| name in files;
      }
    }
  }
}
