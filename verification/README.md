# Verified model of the file transfer protocol

A client uploads a file to a server in chunks of 3968 bytes. The server pulls the chunks it misses one
at a time and records its progress in a bitmap beside the file, so that an upload can be resumed after
either process has stopped. This project models that system and proves what it guarantees over whole
runs. `dafny verify dfyconfig.toml` checks everything.

## What is modelled

| file | part of the system |
|---|---|
| `Machine.dfy` | fixed-width integers, narrowing conversions, error values |
| `Sums.dfy` | sums of ranks, for the termination arguments |
| `Codec.dfy` | the four messages, `Message::serialize` and the parsing constructor |
| `Framer.dfy` | the byte-at-a-time framing machine of `Connection::handleEvent` |
| `Metadata.dfy` | header and MSB-first chunk bitmap of the metadata file, on values |
| `Storage.dfy` | chunking, `FileMetadata` and `FileRemote` on a shared file system |
| `Handlers.dfy` | message builders, server handler, client handler |
| `Worker.dfy` | the server handler as a sequence of atomic effects on the disk |
| `Transfer.dfy` | one upload as a transition system: any number of workers, stops, losses, re-offers |
| `Session.dfy` | the one fault-free session that follows an offer, message by message |
| `Numbers.dfy` | sequence numbers over whole runs |
| `Progress.dfy` | sessions inside that system: the runs of one message, and completion after interruptions |
| `Marks.dfy` | when the progress recorded in the bitmap can be lost |
| `Motion.dfy` | what one step of a live message does to the bitmap |
| `Bounds.dfy` | fault-free runs; they end for files of at most two chunks |
| `TwoWriters.dfy` | two workers on one bitmap byte: a rank that every write lowers |
| `TwoMessages.dfy` | fault-free runs of two live messages end |
| `Endless.dfy` | fault-free runs of three live messages need not end |
| `Endings.dfy` | exactly when fault-free runs end, and that they end completed |
| `ManyUploads.dfy` | all uploads of all clients on one server, projected to each of them |
| `Names.dfy` | under which names uploads disturb each other |
| `Broker.dfy` | queue, mutex, condition variable, worker threads, shutdown |
| `PollGroup.dfy` | the poll group and its removing event loop |

The methods of `Codec`, `Framer`, `Storage`, `Handlers` and `PollGroup` follow the routines of the
sources statement by statement; each is proved equal to a function on values, and the lemmas are about
those functions. The concurrent parts (`Worker`, `Transfer`, `ManyUploads`, `Broker`) are transition
systems whose steps interleave freely.

The main results:

* Safety. In every run, with both processes stopping at any step (also in the middle of writing a chunk,
  or between the data and its bit) and with any number of workers on the same file, a marked chunk
  holds the client's bytes, and FILE_COMPLETE is sent only when the two files are equal. Nothing is
  assumed of the hash: it is an arbitrary function with 64-byte results.
* The exact session. After an offer a fault-free session is determined message by message, sequence
  numbers included, for every file and every state that earlier runs can leave on the server. In the
  full system, for a file of at most 65536 chunks, every run in which only the message of one offer moves is a part of
  that session and of bounded length; for a larger file it is a part of its endless session.
* Endings. From an offer on, fault-free runs (messages move in any order; no stop, no loss, no further offer) that come to
  an end have completed the upload, however many messages are alive. They are bounded in every reachable state if and only
  if there is no live message, or the file has at most two chunks, or there are at most two live messages and at most
  65536 chunks. Three offers of a file with three chunks suffice for a run without end in which the messages
  erase each other's marks for ever.
* Numbers. In any run with one offer, stops and losses included, requests count up from 2 modulo 65536 and
  every chunk echoes the number and index of its request.
* The exact limit. Chunk indices pass through `uint16_t` parameters. An upload can complete if and only
  if it has at most 65536 chunks (260046848 bytes), while the README of the repository states 4 GB; for a larger
  file the session ends in an endless exchange of chunk 0 that changes nothing.
* The byte stream refines a FIFO of messages under any fragmentation; serialize and parse undo each other.
* Marks. A mark is erased exactly by a write-back of a byte read before the mark was set. With one offer, or
  one worker at a time, marks only grow; two offers can erase one, exactly for files of two chunks or more.
* What goes over a connection. The bytes the handlers send, fed to the framing machine, are delivered as exactly the one
  message they stand for; the wire format and the metadata file are pinned down byte by byte.
* Names. A set of uploads with plain file names is safe for all contents and histories if and only if no name is another
  upload's metadata name; for names that collide there is a history in which an upload reported complete
  no longer has the client's contents.
* Noise between frames costs nothing if and only if it consists of blocks the framing machine throws away.
* The broker loses no request and no wake-up, a queued request is popped within a bounded number of worker steps,
  and shutdown always comes to its end.
* The event loop judges a pollable by the events cached at the place it has moved to. The pass is right if and
  only if everybody, newcomers included, finds there events that judge it like its own; when only errors and
  hang-ups occur, this says that the broken connections come last.

Two places where documentation and code differ; the model follows the code. The offer carries a 4-byte
number of chunks (src/protocol/ft_msg.cpp:88-89), not the 2-byte chunk size of README.md:149. The limit on
the file size is the one above, not 4 GB (README.md:187).

## Model

| member | source | states |
|---|---|---|
| Codec.Serialize | src/protocol/ft_msg.cpp:71-118 | Appending field by field yields exactly the specified frame, or the length error exactly for a chunk of 0 or more than 3968 bytes. |
| Codec.Parse | src/protocol/ft_msg.cpp:26-69 | Advancing through a buffer that holds its own fields yields the decoded message and length, or the unsupported-type error. |
| Codec.NetworkOrder | src/protocol/ft_msg.cpp:120-152 | Numbers are written most significant byte first. |
| Codec.PayloadFits | src/protocol/ft_msg.cpp:98-116 | A sendable payload has 19 to 4248 bytes, so the 16-bit length field never truncates. |
| Codec.EnvelopeOnWire | src/protocol/ft_msg.cpp:71-118 | Byte by byte: 0x87 0xFE 0x77 and the type 1 to 4, two bytes of length, two of sequence number, 16 of UUID, one of name length, at most 255 of name. |
| Codec.BodyOnWire | src/protocol/ft_msg.cpp:84-107 | Byte by byte: the fields of each body in order, and the frame ends with them. |
| Codec.TypeOfBuffer | src/protocol/ft_msg.cpp:26-69 | The parser accepts exactly the types 1 to 4 behind the magic bytes, each as its kind of message. |
| Codec.ParseUndoesSerialize | src/protocol/ft_msg.cpp:26-118 | Parsing a serialized message gives back every field and the payload length; a name longer than 255 bytes comes back as its first 255. |
| Codec.SerializeUndoesParse | src/protocol/ft_msg.cpp:26-118 | Re-serializing any parsed frame of exact length, known type and legal chunk length gives back the same bytes. |
| Framer.Connection.Receive | src/netwrk/ft_conn.cpp:144-171 | One received byte moves buffer, length and deliveries as the framing machine prescribes. |
| Framer.Connection.HandleEvent | src/netwrk/ft_conn.cpp:118-183 | An event feeds its bytes in order; the buffer persists to the next event. |
| Framer.SplitsDoNotMatter | src/netwrk/ft_conn.cpp:142-183 | However a stream is cut into events, state and deliveries are those of the whole stream. |
| Framer.StreamIsFifo | src/netwrk/ft_conn.cpp:142-183 | The concatenation of any serialized messages, cut in any way, delivers exactly these messages in order and ends with an empty buffer, whatever the payloads contain. |
| Framer.NeverAheadOfSender | src/netwrk/ft_conn.cpp:142-183 | At every moment the delivered frames are a prefix of the sent ones. |
| Framer.AnyInput | src/netwrk/ft_conn.cpp:144-171 | For arbitrary bytes the buffer is a prefix of a candidate frame of at most max(6, len+5) bytes, and every delivery has the magic, a type in 1..4 and its announced length. |
| Framer.EmptyAgain | src/netwrk/ft_conn.cpp:144-171 | From any such state, the buffer is empty again after at most 65541 bytes including those already held. |
| Framer.HarmlessIff | src/netwrk/ft_conn.cpp:144-171 | Bytes leave the machine as it was, with nothing delivered or held, if and only if they are a sequence of blocks it throws away. |
| Framer.NoiseCostsNothingIff | src/netwrk/ft_conn.cpp:144-171 | Noise before any frames leaves them all delivered and nothing else if and only if it is a sequence of such blocks. |
| Framer.NoiseCostsNothing | src/netwrk/ft_conn.cpp:144-171 | Noise without 0x87 between frames costs no frame. |
| Framer.StrayMagicLosesAFrame | src/netwrk/ft_conn.cpp:144-171 | Noise that is not harmless: one stray 0x87 before a frame makes the frame vanish. |
| Metadata.FreshIsEmpty | src/file/ft_file_meta.cpp:36-58 | A new metadata file marks no chunk and its header reads back. |
| Metadata.FreshLooksFresh | src/file/ft_file_meta.cpp:36-58 | Byte by byte: size, 3968, hash, then one zero bit per chunk and no byte more than that takes. |
| Metadata.HeaderRoundTrip | src/file/ft_file_meta.cpp:111-131 | A file that starts with a written header reads back as that size, chunk size and hash. |
| Metadata.MarkIsOneBit | src/file/ft_file_meta.cpp:60-83 | Marking changes the mark of exactly one index and no header byte. |
| Metadata.MarkRefinesSet | src/file/ft_file_meta.cpp:60-83 | On the set of received chunks, marking adds or removes exactly the given index. |
| Metadata.MarkAddsItsPower | src/file/ft_file_meta.cpp:71-77 | Marking chunk i adds 2^(7 - i mod 8) to its byte, and unmarking takes it away. |
| Metadata.BitmapIsTight | src/file/ft_file_meta.cpp:20-34 | n chunks take the least number of whole bytes that holds n bits, and a file the least number of chunks that holds it. |
| Metadata.NextMissingIsLeast | src/file/ft_file_meta.cpp:85-109 | The scan returns the least unmarked index from 8*(from/8) on and below the chunk count, UINT64_MAX exactly when there is none, whatever the padding bits hold. |
| Storage.FileMetadata.constructor | src/file/ft_file_meta.cpp:20-34 | Chunk count and bitmap size are those of the file size. |
| Storage.FileMetadata.CreateIfNotExist | src/file/ft_file_meta.cpp:36-58 | If there is no metadata file, one that looks fresh byte by byte is added; otherwise nothing changes; no other file changes. |
| Storage.FileMetadata.MarkChunk | src/file/ft_file_meta.cpp:60-83 | The metadata file afterwards is the marked one, unchanged when the byte lies beyond its end; no other file changes. |
| Storage.FileMetadata.CountOnes | src/file/ft_file_meta.cpp:102-102 | The bit loop counts the leading ones of a byte. |
| Storage.FileMetadata.NextMissingChunk | src/file/ft_file_meta.cpp:85-109 | The byte-skipping loop returns the least missing chunk. |
| Storage.FileMetadata.ReadField | src/file/ft_file_meta.cpp:111-131 | One read fills a zeroed field; what lies beyond the end of the file stays zero. |
| Storage.FileMetadata.ReadHeaderOf | src/file/ft_file_meta.cpp:111-131 | Three reads give the two little-endian words and the hash at the front of the file, zero where the file is too short or absent; so a header that was written comes back. |
| Storage.ChunksTile | src/file/ft_file.cpp:177-186 | Chunks 0..n-1 cover every position exactly once, have 1 to 3968 bytes each, and no other index yields data. |
| Storage.AcceptsWhatIsSent | src/file/ft_file.cpp:248-263 | `saveChunk` accepts for an index exactly the length `getChunk` produces for it. |
| Storage.AnyOrderRebuilds | src/file/ft_file.cpp:246-274 | Chunks saved in any order with any repetition mark exactly themselves, and when none is missing the file equals the client's. |
| Storage.OpenIsConsistent | src/file/ft_file.cpp:208-227 | A newly opened upload satisfies the hypothesis of the rebuilding theorem. |
| Storage.FileRemote.constructor | src/file/ft_file.cpp:208-227 | An absent target becomes as many zero bytes as the size says, an absent metadata file a fresh one; existing files and all others stay as they are. |
| Storage.FileRemote.IsCompleteNow | src/file/ft_file.cpp:229-244 | With a metadata file of full size: true exactly when the target exists, every chunk is marked and the contents hash to the announced value; with any: never true for contents with another hash. |
| Storage.FileRemote.SaveChunk | src/file/ft_file.cpp:246-274 | If offset and length are right, lays the data over the target, filling a gap with zeros, and marks exactly this chunk besides; otherwise, and in all other files, nothing changes. |
| Handlers.ServerHandleRequest | src/ft_server.cpp:105-186 | The disk afterwards is that of the handler specification and only the two files of the upload change; with a connection and a reply the bytes sent, fed to the framing machine, are delivered as exactly that one message, and otherwise nothing is sent. |
| Handlers.AnswerMeans | src/ft_server.cpp:115-175 | The answer is a completion exactly if every chunk is marked and the contents hash as announced; otherwise a request for the least missing chunk, numbered one up. |
| Handlers.ServerReplies | src/ft_server.cpp:113-186 | The server replies exactly to offers and to chunks of uploads with a header, changes nothing otherwise, and never sends a completion for contents with another hash. |
| Handlers.ClientRequestHandler.OfferFile | src/ft_client.cpp:228-243 | Registers the file unless the name is taken; the bytes sent arrive as offer number 1. |
| Handlers.ClientRequestHandler.HandleRequest | src/ft_client.cpp:184-226 | Reply and exceptions are those of the client specification; with a connection the bytes sent, fed to the framing machine, are delivered as exactly that one message, and otherwise nothing is sent; every other file stays offered, the named one leaves exactly for a completion under the own UUID. |
| Handlers.ClientRequestHandler.UploadsCompleted | src/ft_client.cpp:245-248 | True exactly when no file is offered any more. |
| Handlers.ClientAnswersIff | src/protocol/ft_msg_fctry.cpp:43-63 | The client answers exactly the requests, after 16-bit narrowing, for an existing chunk of a file it offers under its own UUID; the answer is that chunk and echoes the number. |
| Handlers.OthersStayOffered | src/ft_client.cpp:213-215 | A message takes at most the file it names off the list, and exactly if it is a completion under the own UUID. |
| Handlers.ClientThrowsIff | src/ft_client.cpp:207-223 | The client throws exactly for a request, after 16-bit narrowing, beyond the end of the file or exactly at it. |
| Worker.RunsToHandler | src/ft_server.cpp:105-186 | The atomic disk effects of a worker, run without interruption, compute exactly the handler. |
| Transfer.EveryStepFine | src/file/ft_file.cpp:208-274 | Every atomic effect, with `markChunk`'s read and write-back separate and the scan byte by byte, keeps the invariant and damages no right byte. |
| Transfer.RunsKeepInv | src/ft_server.cpp:105-186 | Every run of any interleaving keeps the invariant. |
| Transfer.MarkedMeansReceived | src/ft_server.cpp:115-175 | After any run a marked chunk holds the client's bytes; a completion message in flight, or the client's belief that it is done, means that the files are equal. |
| Transfer.ReceivedForGood | src/file/ft_file.cpp:246-274 | A file once received stays received whatever happens later. |
| Transfer.TargetIsRightOrBlank | src/file/ft_file.cpp:217-226 | In every run each byte of the target is the client's or 0, and without a stop during its creation the target has the full length from the beginning. |
| Transfer.FaultsTake | src/ft_server.cpp:105-186 | A stop or loss takes exactly the messages held by workers, the one message, or the client's list, and no byte of the metadata. |
| Transfer.LargeFileNeverCompletes | src/protocol/ft_msg_fctry.cpp:28-63 | With more than 65536 chunks no run reports completion, and no index from 65536 on is requested, sent or marked. |
| Transfer.OneLiveMessage | src/ft_client.cpp:205-243 | One offer keeps at most one message alive across streams, queues and workers. |
| Transfer.WireIsTransparent | src/protocol/ft_msg.cpp:26-118 | Every live message of every run, framed and parsed again, is the same message. |
| Transfer.HeaderOfUpload | src/file/ft_file.cpp:146-164 | The header of an upload in progress reads back as offered; without a metadata file the chunk size reads as 0. |
| Session.ExactSession | src/ft_server.cpp:115-175 | With at most 65536 chunks: one offer, the rounds of the missing chunks, one completion; the missing chunks are in increasing order and exactly the unmarked ones; no exception, the client's list ends empty, the files end equal and every chunk is marked. |
| Session.RoundsAt | src/ft_server.cpp:127-162 | Round k is one request and one chunk message for the k-th missing chunk (from 0), both with the number k+1 after the starting one modulo 65536, so from 2 on after the offer. |
| Numbers.NumbersCountUp | src/protocol/ft_msg_fctry.cpp:13-76 | In any run with one offer: the offer has number 1 and the size, chunk count and hash of the file, the k-th request k+1 modulo 65536 and last index 65535, each chunk the number and index of its request and exactly those bytes, a completion the number of the message it answers, and nothing follows it. |
| Session.LargeSession | src/ft_server.cpp:127-162 | With more chunks: the missing ones below 65536 are transferred once each, then chunk 0 is requested for ever and neither file changes. |
| Session.Stalls | src/ft_server.cpp:159-162 | Once chunks 0..65535 are present every further round leaves both files unchanged. |
| Session.FinishesIff | README.md:187-188 | A session finishes if and only if the file has at most 260046848 bytes. |
| Session.AsksForMissing | src/ft_server.cpp:127-162 | With at most 65536 chunks every request among the first k messages of a session, for every k, names a chunk unmarked when it began. |
| Session.LargeAsks | src/ft_server.cpp:127-162 | With more chunks that holds of the first messages, two per missing chunk and the offer; all later requests are for chunk 0. |
| Session.ResumeIsFaithful | src/file/ft_file.cpp:137-164 | After any run: a file opened from its path alone has the chunk count, files, next missing chunk and completion verdict of the one opened from the offer; the requests of a new session are as in the two rows above; it completes if the protocol can carry the file. |
| Progress.FaultFreeRunIsTheSession | src/ft_server.cpp:105-186 | At most 65536 chunks: in every reachable state, every run after an offer in which only its message moves says a part of the exact session, and one that cannot go on says all of it and has completed the upload. |
| Progress.FaultFreeRunsEnd | src/ft_server.cpp:105-186 | At most 65536 chunks: the length of these runs is bounded, whatever other messages lie still. |
| Progress.LargeRunIsTheSession | src/ft_server.cpp:127-162 | More than 65536 chunks: every such run says a part of the endless session, and its message can always make another step. |
| Progress.CanAlwaysComplete | src/ft_server.cpp:105-186 | At most 65536 chunks: from every reachable state some continuation completes the upload. |
| Progress.CompletableIff | src/protocol/ft_msg_fctry.cpp:28-63 | Some run completes an upload if and only if it has at most 65536 chunks. |
| Marks.StepUnmarksIff | src/file/ft_file_meta.cpp:60-83 | A worker's step erases the mark of a chunk if and only if it writes back that chunk's bitmap byte for another chunk and the byte it read lacked the mark. |
| Marks.MarksOnlyGrow | src/file/ft_file_meta.cpp:66-82 | While at most one worker serves the upload no action erases a mark, stops and losses included. |
| Marks.OneOfferKeepsMarks | src/ft_client.cpp:205-243 | In every run with one offer a mark once set stays. |
| Marks.TwoOffersLoseAMark | src/file/ft_file_meta.cpp:66-82 | For every file of two chunks or more there is a run from the start, with two offers, whose last step erases the mark of chunk 1. |
| Marks.LossPossibleIff | src/file/ft_file_meta.cpp:66-82 | Some run erases a mark if and only if the file has two chunks or more. |
| Motion.EveryAdvance | src/ft_server.cpp:105-186 | At most 65536 chunks: every step of a live message writes back one bitmap byte with one bit added to what was read, or changes no byte and brings it closer to its next write or its end; it asks only for a chunk that is the first missing one of its byte, or, after a search in vain, for chunk 65535. |
| TwoWriters.WriteRank | src/file/ft_file_meta.cpp:60-83 | Two workers on one byte: a write-back lowers the rank of the byte, whatever marks it erases. |
| TwoWriters.ReadRank | src/file/ft_file_meta.cpp:66-69 | So does reading the byte. |
| TwoMessages.TwoMessagesEnd | src/ft_server.cpp:105-186 | At most 65536 chunks and two live messages: the length of fault-free runs is bounded. |
| Bounds.FewChunksEnd | src/ft_server.cpp:105-186 | At most two chunks: the same for any number of live messages. |
| Endless.EndlessRun | src/file/ft_file_meta.cpp:60-83 | Three chunks or more: for every length there is a run from the start, at least that long, with three offers and no stop or loss, after which the upload is not completed. |
| Endings.EndsCompleted | src/ft_server.cpp:105-186 | From an offer on, a fault-free run that leaves no message has completed the upload, with equal files, whatever other messages were alive. |
| Endings.AlwaysEndsIff | src/ft_server.cpp:105-186 | Fault-free runs with k live messages are bounded in every reachable state if and only if k is 0, or the file has at most two chunks, or k is at most 2 and the file has at most 65536 chunks. |
| ManyUploads.ApartIff | src/file/ft_file_meta.cpp:31-33 | Two uploads use disjoint files if and only if they have different clients or neither name is the other's metadata name. |
| ManyUploads.ProjectsStep | src/ft_server.cpp:105-186 | Every step of the whole server is, for each upload, one action of that upload or invisible to it. |
| ManyUploads.ProjectsHistory | src/ft_server.cpp:110-111 | Any interleaving of all uploads projects to a run of each upload alone. |
| ManyUploads.EveryUploadSafe | src/ft_server.cpp:110-175 | So a reported completion means equal files for each of many concurrent uploads. |
| Names.SessionAmongOthers | src/ft_server.cpp:105-186 | Among any other traffic at rest, an upload of at most 65536 chunks whose files are in order can be completed by events of its own that touch only its two files. |
| Names.CollisionSpoils | src/file/ft_file_meta.cpp:31-33 | For any set of uploads with plain file names in which one name is another's metadata name there are contents and a history from the start after which the former is reported complete and its file differs from the client's. |
| Names.SafeNamesIff | src/file/ft_file_meta.cpp:31-33 | For plain file names: for all contents and histories a reported completion means equal files, if and only if no name is the metadata name of another upload of the same client. |
| Broker.ApplyKeepsInv | src/request/ft_req_brkr.cpp:118-151 | Every step of every thread keeps mutual exclusion, wake-ups, conservation and shutdown bookkeeping. |
| Broker.NothingLostNothingTwice | src/request/ft_req_brkr.cpp:90-151 | The requests handed to `queueRequest` are those for which a handler call has begun, in that order, followed by the queue and the one just coming in; each worker has ended exactly the calls it began except the one it is in. |
| Broker.OneWorkerIsFifo | src/request/ft_req_brkr.cpp:118-151 | With one worker the requests handed over are those whose handler call has ended, in order, then the one in the handler, the queue and the one coming in. |
| Broker.SleepsOnlyWhenIdle | src/request/ft_req_brkr.cpp:90-134 | An un-notified waiting worker implies an empty queue and an unset flag, outside the main thread's critical regions. |
| Broker.QueuedMeansProgress | src/request/ft_req_brkr.cpp:118-139 | While a request is queued some thread can take a step that is not a spurious wake-up. |
| Broker.QueuedIsPopped | src/request/ft_req_brkr.cpp:118-151 | With n workers and the flag unset, the handler is called for a request with p others before it in the queue after at most 3n+4p+1 steps of the workers, and it is the next but p of those handed over. |
| Broker.NothingPoppedAfterwards | src/request/ft_req_brkr.cpp:131-138 | After the flag is set no handler call begins and the queue stays. |
| Broker.FinishesWhatItHolds | src/request/ft_req_brkr.cpp:118-151 | After the flag is set each worker ends at most the call it is in. |
| Broker.CleanShutdown | src/request/ft_req_brkr.cpp:69-88 | Every continuation after the flag is finite, and one that cannot go on has joined every worker. |
| PollGroup.Group.Add | src/loop/ft_poll_grp.cpp:29-42 | Appends and refreshes every cached descriptor, or fails exactly when the group is full; cached events stay. |
| PollGroup.Group.Remove | src/loop/ft_poll_grp.cpp:44-59 | Erases the first occurrence and refreshes descriptors; the cached events do not move, the last entry is cut. |
| PollGroup.Group.PollAndHandle | src/loop/ft_poll_grp.cpp:61-99 | The pass ends with exactly the specified survivors, although the index wraps at 0 and the vectors change under it; cached descriptors that agreed with the pollables still do. |
| PollGroup.AloneInTheGroup | src/loop/ft_poll_grp.cpp:72-95 | Over all flags: a pollable alone in the group is dropped exactly if something is reported and that is an error or hang-up, or its descriptor was -1, or reading makes it -1; and only a readable listener lets anybody in. |
| PollGroup.ListenerTakesIn | src/netwrk/ft_conn_listener.cpp:90-110 | A readable listener lets in all waiting connections, or as many as the limit of the group allows. |
| PollGroup.BrokenDropsTheRest | src/loop/ft_poll_grp.cpp:87-94 | A hang-up or error seen at the current index removes everybody from there on. |
| PollGroup.SurvivorsBefore | src/loop/ft_poll_grp.cpp:72-95 | Without new connections, a whole pass in which position i is broken ends with the first i of those who stay when position i and all behind it report nothing. |
| PollGroup.NobodyBehindBroken | src/loop/ft_poll_grp.cpp:72-95 | Without new connections nobody ends at or behind a position reported as broken. |
| PollGroup.PassKeepsOwnIff | src/loop/ft_poll_grp.cpp:72-95 | Without new connections, with descriptors that are or become -1: the pass keeps exactly those whom their own events do not remove, if and only if each is judged alike by the events as many places before its own as were removed before it. |
| PollGroup.PassIsRightIff | src/loop/ft_poll_grp.cpp:72-95 | The same with connections accepted during the pass: they stay at the end, and nobody else, if and only if in addition no newcomer is removed by old events left at its place. |
| PollGroup.ClosedSavesBroken | src/netwrk/ft_conn.cpp:173-178 | A connection closed by its peer before a broken one: the broken one, though last, is kept. |
| PollGroup.KeepsHealthyIff | src/loop/ft_poll_grp.cpp:72-95 | When no descriptor is or becomes -1 and nobody is added, the pass removes exactly the broken positions if and only if no healthy position follows a broken one. |
| PollGroup.HealthyIsTheCase | src/loop/ft_poll_grp.cpp:72-95 | This is the condition of PassKeepsOwnIff, and the right result is the same, when only hang-ups and errors occur. |

## Left out

Assumptions of the run properties:

- The client's file does not change, its size is below 2^32 and its name is a plain file name: 1 to 255 bytes, no separator, not "." or ".." (`Offerable`, `PlainName`). The server joins whatever name a message carries to the directory; for other names the pair of client and name is not the file it reaches.
- Metadata on the server stems from earlier runs of the same upload: `createIfNotExist` never rewrites a header, so offering different contents under the same name is outside the invariant.
- Testing for and creating the metadata file is one atomic step, and so is the blank target file, except that a stop may leave the target shorter; two workers racing to create the same target may truncate it, which is not modelled.
- A process stop keeps all writes made so far in program order; loss of written data by the operating system is not modelled.
- The target is hashed in one step. By then every chunk is known to be the client's, and right bytes never change.
- The header fields are stored least significant byte first, as on the usual hosts; reading and writing agree.

- A connection starts with an empty buffer and length 0; the sources leave the length unset, and any value below 2^16 behaves the same because it is overwritten before it is used.

Not modelled:

- Sockets, `recv` and `send` error codes, partial sends, the accept call and `poll` itself: the byte stream is reliable and ordered, and the events reported by `poll` are an input.
- BLAKE2b and the block loop that feeds it: the hash is a parameter.
- UUID generation and storage, its text form (client directories are named by the UUID itself), the command line, signals and logging.
- `chunk_idx_last` beyond its constant, and the per-chunk hash, which no handler uses.
- Codec.Parse: requires that the buffer holds the bytes its own fields announce; reads past the end are not modelled.
- PollGroup.Group.PollAndHandle: requires that no pollable is in the group twice, and takes one listener with the connections waiting at it.
- PollGroup.PassIsRightIff: requires that no pollable occurs twice among the group and the connections waiting.
- PollGroup.KeepsHealthyIff: is the special case in which no descriptor is -1 and no connection is added; the general case is PollGroup.PassIsRightIff.
- PollGroup.SurvivorsBefore: covers passes without new connections, which could take the places behind the broken position after its entry is cut off.
- Motion.EveryAdvance: is for at most 65536 chunks; for larger files Endings.AlwaysEndsIff uses only that no message ever ends.
- Broker.CleanShutdown: takes the starting of the threads as done, the unsynchronized read of the flag as atomic, and that handlers return.
- The broker and the transfer are separate systems; the transfer's free scheduling covers every order the broker can produce.
