# The veys.rs protocol core in Dafny

This project models the protocol code of the veys.rs web server and proves what that code promises.

The main part is the HTTP/2 connection. `Connection` gives it as a state machine on values: one received frame, one
poll of the upstreams and one scheduling round are each a step. `Http2Connection` gives it as the object it is, with
fields updated in place and queues rotated by loops, and proves every method equal to the state machine.
`Http2Session` adds the main loop, and proves it equal to `ConnectionService`, which says what any bytes lead to.
Histories are in `ConnectionTrace`: credit ledgers, the grammar of a response, and what each stream has received and
sent are functions of the history alone, so they do not depend on the server's state. `ConnectionInv` ties a state to
a history, `ConnectionSteps`, `ConnectionSending`, `ConnectionReceiving` and `ConnectionFrames` show that every step
keeps the tie, and `ConnectionRuns` and `ConnectionTheorems` draw the conclusions for every run: any sequence of
frames, polls and rounds in any order, any routing decision, any behaviour of files and upstreams. `ConnectionRounds`
is about scheduling, `ConnectionBlocks` about header blocks in several frames, `ConnectionHeaders` about the headers
that requests are dispatched with, and `ConnectionDrift` about compression tables that a refused stream puts out of
step. `ConnectionLedger` and `ConnectionEndings` are about frame sizes and the list of streams that have ended,
`ConnectionBodies` about when reading a body fails, and `ConnectionAnswers` and `ConnectionResponses` about what is
sent on each stream against what routing or its upstream gave for it.

HPACK is in `HpackCodec`, `HpackTable`, `Hpack`, `HpackDrift`, `Huffman`, `HuffmanTable` and `CanonicalCode`; frames
in `Frame`, `FrameLayout` and `FrameStream`; windows in `Flow`. The smaller cores are HTTP dates (`Calendar`,
`HttpDate`), HTTP/1.1 requests (`Http1`, `Http1Case`, `Http1Parser`, `Http1Text`), FastCGI responses (`FastCgi`,
`FastCgiBody`, `FastCgiReader`), admission control (`Limiter`) and the rule cache (`RuleCache`, `RuleCacheContent`).
`Segments` holds the argument shared by the three readers of byte streams: if a decision about the front of the buffer
stands when more bytes arrive, how the stream is cut into reads does not matter.

What the environment decides is a parameter. Files, sockets and upstreams are scripts of read results (`Sources`), a
statement about all scripts being a statement about all behaviours; routing is an arbitrary choice per request; the
case folding of header names and the HPACK encoder used by the connection are function parameters; time in the limiter
is a real number that does not decrease, and its tokens are real numbers.

Where a property one would expect does not hold of the code, the model keeps the code as it is and the exact condition
is proved:

- A header block cut into several frames acts like one frame unless the stream is refused; then the second frame ends
  the connection (`SplitLikeWhole`, `RefusedSplit`).
- A refused block is not decoded, which is when the compression tables part (`TablesMatchExactly`). From then on the
  server reads everything the encoder may send as it is meant if and only if its newest entries are the encoder's and
  its table is no smaller (`ReadsExactlyInStep`, `RefusalExact`). `RefusalEndsConnection` is a run in which it does
  not, and in which the next legal block ends the connection.
- The list of ended streams is that of the latest ones, as many as it holds, if and only if no stream is ended again
  after it was forgotten (`RememberedExactly`); `ForgottenAgain` is a run, for every limit, in which a second reset of
  a forgotten stream pushes out one that ended later.
- The integer codec loses values that exceed the prefix by 2^63 or more (`IntRoundTrip`).
- Evicting idle token buckets after a minute is invisible, and the sliding bound holds, exactly if the burst is at most
  sixty seconds' worth of tokens (`InvisibleExact`, `BoundExact`).
- A key's results are fresh in every run if and only if the key is not filled through the loader that reads the file
  before the generation (`FreshExactly`); `OvertakenIsStale` is a run in which that loader, overtaken by a clear, makes
  a later load return older content. Which runs these are is `FreshRunExactly`: those in which a load is served an
  entry poisoned before the load began.

Receive-side credit counts request data after padding is removed, as the code does, so the statements about it are
about the payload and not about the peer's own count for padded frames.

## Model

| member | source | states |
|---|---|---|
| `Frame.FrameRoundTrip` | src/server/http2/frame.rs:265-565 | encoding a frame and parsing it gives the frame back if and only if the frame is well formed: length, flags, ids and ranges as the parser demands them |
| `Frame.HeaderRoundTrip` | src/server/http2/frame.rs:124-164 | what the nine-byte header keeps of any header: the length modulo 2^24, the type, the flags, the low 31 bits of the id, whatever bytes follow |
| `Frame.SettingsRoundTrip` | src/server/http2/frame.rs:180-206 | a list of settings survives its six-byte encoding exactly if no known identifier is spelled as an unknown one |
| `Frame.ParseFrame` | src/server/http2/frame.rs:266-488 | the loop over SETTINGS entries computes what the recursive parser does, errors included; what that parser reads is said by the round trip and, for padding and priority, by the layouts below |
| `FrameLayout.HeadersRead` | src/server/http2/frame.rs:298-334 | a HEADERS payload laid out as pad length, priority, block and padding, each as its flag announces, is read as the block alone, with the flags' END_STREAM and END_HEADERS |
| `FrameLayout.DataRead` | src/server/http2/frame.rs:272-296 | a DATA payload with or without padding is read as the data alone |
| `FrameLayout.LayoutRefused` | src/server/http2/frame.rs:272-334 | both are refused exactly on stream 0 or with more padding than room, as a protocol error, and without their fixed part, as a size error |
| `FrameLayout.AcceptedLayout` | src/server/http2/frame.rs:272-334 | whatever is accepted has such a layout, so the readings above are all there are |
| `Frame.EncodeFrame` | src/server/http2/frame.rs:490-565 | the loop extending the body vector writes the encoding for which the round trip is proved |
| `FrameStream.TakenFromWire` | src/server/http2/connection.rs:239-297 | every frame the main loop takes off its buffer satisfies what the connection assumes of frames, and taking one uses up bytes |
| `FrameStream.FrameSegmentation` | src/server/http2/connection.rs:239-297 | however the client's bytes are cut into reads, the frames, the bytes left over and the first error are the same |
| `FrameStream.StreamRoundTrip` | src/server/http2/frame.rs:490-565 | a peer that reads the bytes of any list of well-formed frames gets exactly those frames and nothing is left over |
| `Segments.Segmentation` | src/server/http2/connection.rs:239-297 | for any reader whose decisions stand when bytes are appended, receiving piece by piece equals reading the concatenation |
| `Flow.Window.constructor` | src/server/http2/flow.rs:13-17 | a window starts with the two's-complement reading of its 32-bit size |
| `Flow.Window.Update` | src/server/http2/flow.rs:24-37 | accepted exactly for a positive increment that stays within 2^31-1; a refused update changes nothing |
| `Flow.Window.Consume` | src/server/http2/flow.rs:39-45 | bytes are taken only if the window covers them, and the window is then not negative |
| `Flow.Window.Adjust` | src/server/http2/flow.rs:47-54 | the window moves by the difference or, out of range, not at all |
| `CanonicalCode.CanonicalPrefixFree` | src/server/http2/hpack.rs:463-721 | in a canonical code no code word is a prefix of another |
| `HuffmanTable.SpecCanonical` | src/server/http2/hpack.rs:463-721 | the rows of the table, by code length up to 30, number their words as a canonical code does, the last row ending in all ones |
| `HuffmanTable.SpecIsPrefixCode` | src/server/http2/hpack.rs:463-721 | the 257 entries are numbered by symbol and form a prefix code whose end-of-string word is nothing but ones, at least eight of them |
| `Huffman.WalkComplete` | src/server/http2/hpack.rs:412-454 | walking the bits of any encoded text, padded with fewer than eight ones, yields the text |
| `Huffman.WalkSound` | src/server/http2/hpack.rs:412-454 | whatever the walk accepts is the encoding of what it yields, followed by fewer than eight ones |
| `Huffman.DecodeIsInverse` | src/server/http2/hpack.rs:387-460 | input decodes to a text if and only if the text is valid UTF-8 and the input is its one canonical encoding |
| `Huffman.InsertCode` | src/server/http2/hpack.rs:395-410 | an arena holding exactly the first words of the table becomes one holding exactly one word more |
| `Huffman.BuildTrie` | src/server/http2/hpack.rs:388-411 | the arena built by the loop holds exactly the words of the table |
| `Huffman.DecodeHuffman` | src/server/http2/hpack.rs:387-460 | the arena decoder computes the canonical decoding, accepting and refusing the same inputs |
| `HpackCodec.IntRoundTrip` | src/server/http2/hpack.rs:281-338 | an integer, with any bytes after it, decodes to itself exactly if it exceeds the prefix maximum by less than 2^63, and is refused otherwise |
| `HpackCodec.DecodeIntLoop` | src/server/http2/hpack.rs:281-320 | the shifting loop computes the recursive decoding, with the same overflow and truncation errors |
| `HpackCodec.EncodeIntLoop` | src/server/http2/hpack.rs:323-338 | the loop pushing seven bits at a time writes the encoding for which the round trip is proved |
| `HpackCodec.StringRoundTrip` | src/server/http2/hpack.rs:340-376 | a string, raw or Huffman-coded and with any bytes after it, decodes to itself if it is UTF-8 of representable length |
| `HpackTable.EvictKeepsLongest` | src/server/http2/hpack.rs:97-104 | eviction keeps the longest newest-first prefix that fits the target size |
| `HpackTable.TotalCounts` | src/server/http2/hpack.rs:90-104 | the size of a table is the number of octets of all its names and values and 32 for each entry, as section 4.1 of RFC 7541 has it |
| `HpackTable.InsertRefinesRfc` | src/server/http2/hpack.rs:90-104 | insert-then-evict equals the evict-then-insert rule of section 4.4 of RFC 7541; an entry larger than the table empties it |
| `HpackTable.DynamicTable.Insert` | src/server/http2/hpack.rs:90-95 | the size field stays the sum of the entry sizes within the maximum, and the entries are what RFC 7541 prescribes |
| `HpackTable.DynamicTable.SetMaxSize` | src/server/http2/hpack.rs:85-88 | a new maximum evicts exactly what no longer fits |
| `HpackTable.DynamicTable.EvictToSize` | src/server/http2/hpack.rs:97-104 | the loop reaches the target without its saturating subtraction ever saturating |
| `Hpack.DecodeSplit` | src/server/http2/hpack.rs:136-206 | if a first block decodes, decoding a second one with the table it left equals decoding their concatenation: same headers, same table, same errors |
| `Hpack.BlockRoundTrip` | src/server/http2/hpack.rs:136-224 | a block from any RFC 7541 encoder, free to choose indexed, literal, Huffman, raw and size-update forms, decodes to the encoder's headers and leaves both tables equal |
| `Hpack.ConnectionRoundTrip` | src/server/http2/hpack.rs:136-224 | the same over any sequence of blocks given to one decoder: equal header lists, and the tables never diverge |
| `Hpack.EncodeRoundTrip` | src/server/http2/hpack.rs:240-277 | the server's own header blocks decode, in any decoder state, to the list with lower-cased names and leave the table unchanged; beyond the size limit they are refused |
| `HpackDrift.ReadsExactlyInStep` | src/server/http2/hpack.rs:136-224 | a decoder whose table is not the encoder's reads every sequence of legal blocks within a size limit of at least 34 bytes as meant if and only if its newest entries are the encoder's and its table is no smaller, should the encoder's hold anything |
| `HpackDrift.InStepAlwaysReads` | src/server/http2/hpack.rs:136-224 | a decoder in that position reads them all, whatever the size limit |
| `Hpack.SearchStatic` | src/server/http2/hpack.rs:246-262 | one pass over the static table finds the first full match, or else the first name match |
| `Hpack.EncodeHeadersLoop` | src/server/http2/hpack.rs:240-277 | the encoder loop writes the block for which the round trip is proved |
| `Hpack.HpackDecoder.ReadField` | src/server/http2/hpack.rs:143-203 | one representation changes the table in place as RFC 7541 says and yields its header, or fails as the specification does |
| `Hpack.HpackDecoder.DecodeHeaderBlock` | src/server/http2/hpack.rs:136-206 | the position loop decodes whole blocks, with the table updated in place, exactly as the round trips need |
| `Sources.ReadConserves` | src/server/http2/connection.rs:74-110 | what a read takes and what a source will still yield make up what it would have yielded |
| `Sources.ReadYields` | src/server/http2/connection.rs:74-110 | a read with room takes the next of the bytes that come before the end, or is the end itself |
| `ConnectionSending.ReadProgress` | src/server/http2/connection.rs:63-120 | a read of any kind of body yields the next bytes and never loses, repeats or reorders one; it says done exactly when a known length is reached; when it fails is said below |
| `ConnectionBodies.ReadExactly` | src/server/http2/connection.rs:63-120 | a read with room fails exactly if a file has nothing at hand or no bytes left to send, or an upstream fails or ends before its declared length; otherwise it yields the next bytes that are there, not none, within the room, or says that it must wait or is done, each exactly when it is so |
| `ConnectionBodies.FailMeans` | src/server/http2/connection.rs:63-120 | a body whose reading fails after any number of reads is one that may fail as a whole: a file that halts before its size, or an upstream that fails or ends too early |
| `ConnectionSteps.HeadersWritten` | src/server/http2/connection.rs:847-897 | the frames of a header block leave the connection between blocks, advance one stream's response and touch nothing else |
| `ConnectionSteps.QueueKeeps` | src/server/http2/connection.rs:823-944 | answering a waiting stream keeps the invariant: the headers go out, a body-less stream is released, another waits with its whole body; that these are the response's own is `DispatchExactly` and `PollExactly` |
| `ConnectionResponses.DispatchExactly` | src/server/http2/connection.rs:634-742 | a complete request is handed over once with its headers and body; a rejection stops the connection, an immediate response is answered with the encoder's block for its status and headers, in full over its frames, and with its own body, an upstream waits with its script |
| `ConnectionResponses.PollExactly` | src/server/http2/connection.rs:753-821 | polling an upstream sends nothing before it answers, RST_STREAM exactly if it failed, and if its headers are ready that answer: its header block, in full over its frames, and its own body |
| `ConnectionResponses.TurnExactly` | src/server/http2/connection.rs:946-1059 | the turn of a response sends nothing without room in both windows, RST_STREAM exactly if reading its body fails, and otherwise nothing or one DATA frame on its stream |
| `ConnectionResponses.QueueAnswers` | src/server/http2/connection.rs:823-944 | answering a stream sends HEADERS and CONTINUATION on it and nothing else; their fragments joined are the encoder's block for `:status` and the response's headers, and the body queued is the upstream's, the byte vector, the file or the compressed file, with its size or declared length, or none exactly if there is no upstream and the byte vector or file is empty |
| `ConnectionSteps.DispatchKeeps` | src/server/http2/connection.rs:634-742 | handing over a complete request keeps the invariant for every routing answer, or stops with a safe history |
| `ConnectionSending.PollKeeps` | src/server/http2/connection.rs:753-821 | a poll of all upstreams keeps the invariant, whatever they answer |
| `ConnectionSending.ScheduleKeeps` | src/server/http2/connection.rs:946-1059 | a scheduling round keeps the invariant, whatever the bodies yield; both windows always cover what is sent |
| `ConnectionReceiving.SettingsTelescope` | src/server/http2/connection.rs:358-395 | several INITIAL_WINDOW_SIZE values in one accepted frame move every window by the last value minus the old one |
| `ConnectionReceiving.SettingsAccepted` | src/server/http2/connection.rs:358-395 | SETTINGS is accepted exactly if each value is in range and pushes no window above 2^31-1, judged by the windows before the frame |
| `ConnectionFrames.HeadersKeep` | src/server/http2/connection.rs:432-490 | HEADERS in any state keeps the invariant, refusing, admitting, decoding or dispatching, or stops with a safe history |
| `ConnectionFrames.ContinuationKeep` | src/server/http2/connection.rs:492-523 | CONTINUATION keeps the invariant: the block grows within its limit or the request is completed |
| `ConnectionFrames.DataKeep` | src/server/http2/connection.rs:525-594 | DATA keeps the invariant: its bytes join the request and their credit is returned on stream and connection |
| `ConnectionFrames.ReplenishRestores` | src/server/http2/connection.rs:528-545 | both receive windows end where they began, and the check fails exactly if one of them does not cover the data |
| `ConnectionFrames.StreamUpdate` | src/server/http2/connection.rs:596-614 | WINDOW_UPDATE on a stream moves its window and its shadow together, is ignored on a recently closed stream, and is an error otherwise; which streams those are is `LedgersKept` and `ClosedAreLatest` |
| `ConnectionEndings.LateUpdate` | src/server/http2/connection.rs:596-614 | in every run WINDOW_UPDATE on a stream stops the connection exactly if it takes a tracked window out of range or the stream is neither tracked nor among those that the history says are remembered; on a remembered one nothing changes |
| `ConnectionFrames.WindowUpdateKeep` | src/server/http2/connection.rs:596-614 | WINDOW_UPDATE keeps both ledgers, wherever the stream is |
| `ConnectionFrames.ResetKeep` | src/server/http2/connection.rs:616-622 | RST_STREAM removes the stream from every place at once and keeps the invariant |
| `ConnectionFrames.FrameKeeps` | src/server/http2/connection.rs:339-632 | any frame in any reachable state keeps the invariant or stops the connection with a safe history and no stream above the last id touched |
| `ConnectionRuns.RunSound` | src/server/http2/connection.rs:180-308 | every state reached by any sequence of inputs satisfies the invariant, and every stopped run is safe and ended by GOAWAY |
| `ConnectionTheorems.FlowLedger` | src/server/http2/connection.rs:339-632 | in every run each send window is the peer's initial window plus credit minus bytes sent and within 2^31-1 of zero, shadows agree, and the connection window is 65535 plus credit minus all DATA, never negative |
| `ConnectionTheorems.SettingsExact` | src/server/http2/connection.rs:358-395 | in every reachable state SETTINGS is refused exactly for a bad value or a window too large, never for one too small, and an accepted frame acts like its last initial window |
| `ConnectionTheorems.NothingOwed` | src/server/http2/connection.rs:357-594 | between inputs every byte of request data has been returned as credit, every PING answered once with its own data in order, and every SETTINGS acknowledged once |
| `ConnectionTheorems.Decompose` | src/server/http2/connection.rs:823-1059 | any history whose stream is not in the error phase splits into credit, HEADERS CONTINUATION*, DATA* and at most one RST_STREAM |
| `ConnectionTheorems.ResponseGrammar` | src/server/http2/connection.rs:823-1059 | in every run the frames sent on a stream have that shape, with every header block completed and END_STREAM only on HEADERS or the last DATA, on HEADERS exactly if the answer has no body |
| `ConnectionTheorems.FramesWellFormed` | src/server/http2/connection.rs:823-1104 | no frame is written inside another stream's header block, and every frame sent survives encoding and parsing |
| `ConnectionTheorems.StopsWithGoodbye` | src/server/http2/connection.rs:1082-1104 | a stopped connection ends with GOAWAY naming a stream above which nothing was dispatched, answered or sent |
| `ConnectionTheorems.DispatchedOnce` | src/server/http2/connection.rs:466-594 | each request is dispatched at most once, only after END_HEADERS and END_STREAM, with exactly the headers its own block says and exactly the body received, and answered at most once |
| `ConnectionHeaders.HeadersAsSent` | src/server/http2/connection.rs:432-594 | in every run the headers dispatched for a stream are those that replaying the history decodes from that stream's own block, blocks taken in order and refused ones taken back; the decoder's table is the replayed one, within its size |
| `ConnectionHeaders.SaysAsMeant` | src/server/http2/hpack.rs:136-224 | in that replay a block of any RFC 7541 encoder says what its encoder meant and leaves the encoder's table |
| `ConnectionHeaders.RefusalExact` | src/server/http2/connection.rs:446-463 | in every run, after refusing a stream the server reads every sequence of the encoder's legal blocks within its own block size limit as meant if it still has all that the encoder may refer to, and only then |
| `ConnectionTheorems.BodyDelivered` | src/server/http2/connection.rs:63-120 | the DATA sent is always a prefix of the body; for byte-vector and file bodies the stream has ended exactly when the whole body was sent; a declared upstream length is met before the end; an undeclared one ends only after a read of zero, with everything before that read sent |
| `ConnectionTheorems.NothingLost` | src/server/http2/connection.rs:946-1059 | for every response under way, the DATA sent followed by what its body still holds is exactly the whole body, and known lengths add up |
| `ConnectionResponses.ResponsesAsGiven` | src/server/http2/connection.rs:634-1059 | in every run and on every stream, what was sent is what routing or the upstream gave for it: the header fragments joined are the encoder's block for its status and headers, END_STREAM is on them exactly if there is no body, the DATA is the beginning of its body, the stream ends with all of it, and a byte vector or file sent in full has ended it; nothing is sent without an answer |
| `ConnectionResponses.ResetsExplained` | src/server/http2/connection.rs:753-1059 | in every run the server sends RST_STREAM only on a stream it refused, on one whose upstream failed before answering, or on one answered with a file that halts before its size or an upstream body that fails or ends too early |
| `ConnectionResponses.LoopDelivers` | src/server/http2/connection.rs:208-308 | when the main loop comes to rest after any run, a stream answered with a byte vector, or a file read without halting, and not reset by the client, is finished once the windows have allowed its length |
| `ConnectionTheorems.PlacesAndLimits` | src/server/http2/connection.rs:1060-1080 | every tracked stream is in exactly one of three places without duplicates; ids are odd and not above the last; stream, request and closed-list limits hold |
| `ConnectionLedger.LedgersKept` | src/server/http2/connection.rs:339-1080 | in every run no frame exceeds the last accepted MAX_FRAME_SIZE received before it was sent, that value is the one in use, and the list of ended streams is the function of the history that adds each stream once as its response ends, it is reset or refused, and drops the oldest beyond the larger of 16 and twice the stream limit |
| `ConnectionEndings.RememberedExactly` | src/server/http2/connection.rs:1071-1080 | for every history and limit, the list is throughout the latest streams that ended, as many as fit, if and only if no stream ends again after it was dropped |
| `ConnectionEndings.ClosedAreLatest` | src/server/http2/connection.rs:1071-1080 | in every such run the server's own list is the latest streams that ended |
| `ConnectionEndings.ForgottenAgain` | src/server/http2/connection.rs:1071-1080 | for every limit there is a run whose list is not: one reset more than fit, and then the first again |
| `ConnectionEndings.OverUntracked` | src/server/http2/connection.rs:946-1080 | in every run a stream whose response is complete or cut short has no window left |
| `ConnectionTheorems.FairRounds` | src/server/http2/connection.rs:946-1059 | in every reachable state whose connection window covers the waiting responses, a round serves each as if alone with an equal share, the unfinished ones keeping their order |
| `ConnectionRounds.EqualShares` | src/server/http2/connection.rs:946-1059 | a round over any such queue sends what the responses send apart, the share being the window divided by their number |
| `ConnectionRounds.ApartAt` | src/server/http2/connection.rs:946-1059 | a response's part of the round does not depend on its place in the queue |
| `ConnectionTheorems.ExactShares` | src/server/http2/connection.rs:946-1059 | in every reachable state whose connection window covers the waiting responses, a round sends for each byte-vector response with an open window exactly one frame, of the least of its share, the frame size, its window and what it has left; what remains of it stays queued, and the queue keeps its order |
| `ConnectionRounds.ExactRound` | src/server/http2/connection.rs:946-1059 | the same of a round over any such queue, for a response at any place in it |
| `ConnectionRounds.ProgressUsesWork` | src/server/http2/connection.rs:211-227 | whenever a poll or a round reports progress, twice the waiting headers plus the waiting bodies plus the connection window has become smaller |
| `ConnectionRounds.Settled` | src/server/http2/connection.rs:211-227 | the restarts of the main loop between two socket reads come to an end, at most one per unit of that measure, with the invariant kept; at rest the connection window is used up, or that of every stream whose body is a byte vector or a file |
| `ConnectionRounds.RoundResting` | src/server/http2/connection.rs:946-1059 | a round that reports no progress leaves no byte-vector or file response that both windows would let send |
| `ConnectionBlocks.ResponseFramesSplit` | src/server/http2/connection.rs:847-897 | a response's header frames are its block in pieces no larger than the peer's frame size that reassemble to the block |
| `ConnectionBlocks.ResponseHeadersArrive` | src/server/http2/connection.rs:823-897 | a peer that joins the fragments and decodes them has the response's status and headers, names in lower case, its table unchanged |
| `ConnectionBlocks.SplitLikeWhole` | src/server/http2/connection.rs:466-523 | feeding a block in any parts does exactly what one frame does, the size limit included, if and only if it is one part or the stream is not refused |
| `ConnectionBlocks.RefusedSplit` | src/server/http2/connection.rs:446-463 | a refused stream whose block comes in several frames ends the connection with PROTOCOL_ERROR, although the same block in one frame does not |
| `ConnectionBlocks.RequestHeadersArrive` | src/server/http2/connection.rs:466-523 | a request without body whose headers any RFC 7541 encoder wrote, in any frames, is dispatched with exactly those headers, however routing answers it, and the tables match again |
| `ConnectionBlocks.RequestWithBodyArrives` | src/server/http2/connection.rs:466-594 | a request with a body, its headers in any frames and its body in any DATA frames the windows cover, is dispatched with exactly those headers and that body after its credit is returned |
| `ConnectionBlocks.TablesMatchExactly` | src/server/http2/connection.rs:446-482 | after HEADERS the decoder's table is the encoder's exactly if the stream was not refused or the block left the table as it was |
| `ConnectionDrift.RefusalEndsConnection` | src/server/http2/connection.rs:446-482 | at a limit of one stream, blocks of four bytes being allowed, there is a run in which a refused block puts the tables out of step and the encoder's next legal block ends the connection with COMPRESSION_ERROR |
| `ConnectionInv.MarkClosedKeeps` | src/server/http2/connection.rs:1071-1080 | the list of closed ids stays distinct and within its limit, a new id coming last and pushing out only the oldest |
| `Http2Connection.Driver.constructor` | src/server/http2/connection.rs:148-172 | a new driver stands for the initial state |
| `Http2Connection.Driver.MarkClosedStream` | src/server/http2/connection.rs:1071-1080 | the loop keeps the newest ids of the closed list within its limit |
| `Http2Connection.Driver.SendHeaderBlock` | src/server/http2/connection.rs:847-897 | the fragment loop writes exactly the frames of the header block |
| `Http2Connection.Driver.QueueResponse` | src/server/http2/connection.rs:823-944 | fields and output change as the state machine's answer prescribes, which `QueueAnswers` ties to the response itself |
| `Http2Connection.Driver.DispatchRequest` | src/server/http2/connection.rs:634-742 | the same for every routing answer, an error leaving the reported code |
| `Http2Connection.Driver.ApplyAll` | src/server/http2/connection.rs:364-395 | the loops over settings and over all windows, in any order of the map, give the telescoped state or the same error |
| `Http2Connection.Driver.OnHeaders` | src/server/http2/connection.rs:432-490 | HEADERS updates the object as the state machine says, on every path |
| `Http2Connection.Driver.OnContinuation` | src/server/http2/connection.rs:492-523 | CONTINUATION does |
| `Http2Connection.Driver.OnData` | src/server/http2/connection.rs:525-594 | DATA does, returning its credit through the window objects |
| `Http2Connection.Driver.OnWindowUpdate` | src/server/http2/connection.rs:596-614 | WINDOW_UPDATE does |
| `Http2Connection.Driver.OnReset` | src/server/http2/connection.rs:616-622 | RST_STREAM does, filtering both queues by loops |
| `Http2Connection.Driver.ProcessFrame` | src/server/http2/connection.rs:339-632 | any frame changes the object to the state for which all theorems are proved, or fails with the same code, last id and output |
| `Http2Connection.Driver.PollPendingHeaders` | src/server/http2/connection.rs:753-821 | the queue loop over waiting upstreams makes one poll of the state machine |
| `Http2Connection.Driver.SchedulePendingResponses` | src/server/http2/connection.rs:946-1059 | the queue loop over waiting bodies makes one round of the state machine, its window operations always succeeding |
| `ConnectionService.ServeSegmentation` | src/server/http2/connection.rs:210-305 | however a client's bytes are cut into reads, the whole history of the connection, its final state, the bytes left over and the number of frames are the same |
| `ConnectionService.ServeRests` | src/server/http2/connection.rs:210-305 | whatever bytes arrive, a connection that waits for more has no byte-vector or file response that both windows would let send |
| `Http2Session.Session.constructor` | src/server/http2/connection.rs:204-210 | a session begins as a run does, having written the server's SETTINGS |
| `Http2Session.Session.Settle` | src/server/http2/connection.rs:211-227 | polls and rounds are made exactly until neither makes progress, each of them an input of the session's run; the loop ends, and then no byte at hand could be sent |
| `Http2Session.Session.OneFrame` | src/server/http2/connection.rs:228-304 | the frame is the next input of the session's run: state, history and output are what that run leads to, going on or ended by GOAWAY |
| `Http2Session.Session.GiveUp` | src/server/http2/connection.rs:256-293 | bytes that are no frame end the run with GOAWAY and the parser's code |
| `Http2Session.Session.Receive` | src/server/http2/connection.rs:210-305 | the session does exactly what the bytes lead to; its state is that of a run whose frames are exactly the frames of all bytes received, its log is what that run's history says was written, the buffer is what is left over, and it waits with no byte at hand that could be sent |
| `Calendar.DayNumberInverts` | src/router/handler.rs:1002-1010 | for every day since the epoch, the inverse day-number formula applied to the forward algorithm's date gives that day |
| `Calendar.CivilDateValid` | src/router/handler.rs:1002-1010 | the forward algorithm yields only dates of the Gregorian calendar |
| `Calendar.NextDayNumber` | src/router/handler.rs:1061-1064 | the formula numbers each date one more than the date before it, through all months, leap years and centuries |
| `Calendar.DayNumberInjective` | src/router/handler.rs:1061-1064 | no two dates share a day number |
| `Calendar.CivilDateIsGregorian` | src/router/handler.rs:1002-1010 | for every day the forward algorithm gives the date reached by counting days from 1 January 1970 |
| `HttpDate.DateRoundTrip` | src/router/handler.rs:985-1072 | every second since the epoch that fits in 64 bits survives being formatted as text and parsed |
| `HttpDate.ComputeDate` | src/router/handler.rs:1002-1010 | the straight-line computation gives the valid date reached by counting days from 1 January 1970, with the day number the parser assigns to it |
| `HttpDate.FormatHttpDate` | src/router/handler.rs:985-1026 | the text it writes parses back to the second it was given |
| `Decimal.PaddedReads` | src/router/handler.rs:1017-1026 | a number written with any padding is read back by the integer parser |
| `Http1.RequestSegmentation` | src/server/http.rs:234-376 | however a client's bytes are cut into reads, the requests, the bytes left over and the first error are the same |
| `Http1.TakeStable` | src/server/http.rs:362-376 | a request or an error once decided is unchanged by further bytes, and a request uses up bytes |
| `Http1.HeadClean` | src/server/http.rs:250-352 | an accepted head has exactly one non-blank Host, no Transfer-Encoding, agreeing Content-Length values equal to the length used, token names, values without line breaks, and every limit on its lines and counts kept |
| `Http1Case.SameNameExactly` | src/server/http.rs:314-319 | two header names are the same to the parser exactly if they are equal but for the case of ASCII letters |
| `Http1Case.AnySpelling` | src/server/http.rs:250-352 | whatever the case of their letters: in an accepted head no header is named Transfer-Encoding, exactly one is named Host and it is not blank, and every one named Content-Length gives the length used, which is 0 if there is none |
| `Http1Case.HeadsAlike` | src/server/http.rs:250-352 | heads that differ only in the case of letters inside header names are refused with the same error or accepted alike, names apart |
| `Http1Case.RequestsAlike` | src/server/http.rs:250-352 | the same for requests taken off a buffer: the same wait, error, request line, values, body and bytes left |
| `Http1.AcceptedHead` | src/server/http.rs:234-352 | a head found at the front of a buffer is clean and ends, with a blank line, within the header size limit |
| `Http1Text.RequestRoundTrip` | src/server/http.rs:234-376 | every request within the limits, written out and followed by anything, is read back whole and the rest left alone |
| `Http1Parser.FindBlankLine` | src/server/http.rs:399-403 | the window search finds the first blank line |
| `Http1Parser.HasBareBreak` | src/server/http.rs:251-257 | the byte loop reports a line break exactly if some CR or LF is not part of CR LF |
| `Http1Parser.CollectFields` | src/server/http.rs:289-325 | the header loop collects headers, Host values and Content-Length values, with the same first error |
| `Http1Parser.ReadHead` | src/server/http.rs:250-352 | the loops together parse a head as the specification does |
| `Http1Parser.RequestBuffer.Next` | src/server/http.rs:362-376 | a complete request drains exactly its header and body from the buffer; otherwise nothing changes |
| `FastCgi.RecordRoundTrip` | src/server/fastcgi.rs:890-906 | a record sent is a multiple of eight bytes and is taken off the stream again with its kind and content, whatever follows |
| `FastCgi.RecordsRoundTrip` | src/server/fastcgi.rs:883-906 | data of any length is sent in records that come back in order and carry exactly the data |
| `FastCgi.RecordSegmentation` | src/server/fastcgi.rs:266-297 | however the upstream's bytes are cut into reads, the records are the same |
| `FastCgi.DeterminedByStream` | src/server/fastcgi.rs:266-372 | the records taken and the output they carry are a prefix of those of the whole stream, however much of it has arrived |
| `FastCgiBody.NextRecordExact` | src/server/fastcgi.rs:266-297 | there is a record exactly if the bytes received and those that come without waiting complete one, and it is that one; otherwise the answer is malformed, would-block, closed or failed exactly as the front of the bytes and the halt of the reads say |
| `FastCgiBody.NextComing` | src/server/fastcgi.rs:266-297 | the records still to come are the next one and the others, and a would-block changes none of them |
| `FastCgiBody.ReadKeepsPromise` | src/server/fastcgi.rs:338-372 | one read hands out the first part of the body promised by the bytes still to come and keeps the promise about the rest, says the end exactly at a complete body, and fails only where the body is refused |
| `FastCgiBody.DrainExact` | src/server/fastcgi.rs:299-372 | reading on over any upstream, with buffers of any sizes, yields exactly the output to come, and ends as complete if and only if END_REQUEST comes with the declared length; it waits only for a silent upstream and is refused otherwise |
| `FastCgiBody.PollKeepsPromise` | src/server/fastcgi.rs:383-460 | a poll answers only with the headers that the records to come say, leaves everything to be resumed on a would-block, and fails only if they are refused or the deadline passed |
| `FastCgiBody.ResponseExact` | src/server/fastcgi.rs:266-460 | from a new reader, whatever the cuts, delays and buffers: the headers are the output up to its first blank line, and the body is the output after it, in full if and only if END_REQUEST comes with the declared length |
| `FastCgiReader.UpstreamReader.ReadRecord` | src/server/fastcgi.rs:266-297 | the reading loop ends with exactly the record, or the lack of one, that the bytes determine; the record is the next of the stream and a would-block loses nothing |
| `FastCgiReader.UpstreamReader.ConsumeRecord` | src/server/fastcgi.rs:299-334 | accepted exactly if STDOUT stays within the declared length and END_REQUEST has eight bytes and comes at that length; STDOUT joins the body, END_REQUEST ends it, other records change nothing |
| `FastCgiReader.UpstreamReader.Read` | src/server/fastcgi.rs:338-372 | the loop makes exactly the read for which the promise is kept; bytes handed out and bytes ready are always the output after the headers, in order |
| `FastCgiReader.UpstreamReader.Poll` | src/server/fastcgi.rs:383-460 | the loop makes exactly the poll for which the promise is kept; headers end at the first blank line of the output and what follows is the start of the body |
| `Limiter.SlidingBound` | src/server/limits.rs:28-57 | with a burst of at most sixty seconds' tokens, any interval after any history lets through at most burst plus rate times its length, connections included |
| `Limiter.BoundExact` | src/server/limits.rs:28-57 | that bound holds of every run if and only if the burst is at most sixty times the rate |
| `Limiter.InvisibleExact` | src/server/limits.rs:98-103 | in request-only runs that find room, decisions equal those of a limiter that never evicts if and only if the burst is at most sixty times the rate |
| `Limiter.TwoVolleysVisible` | src/server/limits.rs:98-103 | for a larger burst, two bursts a minute apart pass where the never-evicting limiter refuses |
| `Limiter.AdmissionLimiter.EvictOld` | src/server/limits.rs:98-103 | the retain loop keeps exactly the entries that are not stale |
| `Limiter.AdmissionLimiter.AllowRequest` | src/server/limits.rs:28-57 | the table and the answer are those of one step of the limiter analysed above |
| `Limiter.AdmissionLimiter.TryConnection` | src/server/limits.rs:59-84 | one step of the limiter analysed above, at any rate and burst; a connection let in is counted within the limit |
| `Limiter.ReleaseUndoes` | src/server/limits.rs:59-95 | a connection let in and later released leaves the address with as many connections and the same tokens as before, and other addresses alone |
| `Limiter.AdmissionLimiter.ReleaseConnection` | src/server/limits.rs:86-95 | one step of the limiter analysed above; no address gains or loses tokens by it at any time, rate or burst, and no other entry changes |
| `RuleCache.FreshExactly` | src/config/veysrule.rs:1700-1818 | a key's loads are fresh in every run if and only if it is never filled through the loader that reads the file before the generation |
| `RuleCache.FreshRunExactly` | src/config/veysrule.rs:1700-1818 | along any run of any loads, no load returns content read before the generation at which it began if and only if no load hits an entry stamped later than its content was read and read before the load began |
| `RuleCache.LoadNeverStale` | src/config/veysrule.rs:1700-1764 | for keys filled through the generation-first loader only, that holds of every run, racing inserts, bumps and clears included |
| `RuleCache.OvertakenIsStale` | src/config/veysrule.rs:1766-1818 | for every key there is a run in which the file-first loader, overtaken by a clear, makes a later load return older content |
| `RuleCacheContent.ResultsWereThere` | src/config/veysrule.rs:1700-1818 | under every interleaving of loads, clears and edits, what a load returns is content that the key's own file had at a moment of the run, in the generation of its stamp |
| `RuleCacheContent.DevResults` | src/config/veysrule.rs:1700-1818 | in development mode a load returns only a version read no earlier than a load of the key was told the very modification time this load goes by |

## Left out

- Sockets, TLS, signals, threads and the accept loop: input and output over libraries that cannot be seen.
- Failing socket writes, failing file clones and seeks: writes always succeed in the model; in the code they end the connection.
- Request routing, request-header validation and response construction (src/server/http2/connection.rs:634-742, 1174-1240): an arbitrary choice of rejection, immediate response or upstream.
- The connection preface and its GOAWAY (src/server/http2/connection.rs:190-206): one comparison; the model starts after it.
- `deferred_frames` (src/server/http2/connection.rs:228-234): nothing is ever put in that queue.
- In-place update of `PendingBody` and `Stream` objects: they are values stored in the queues and maps, replaced when they change, so aliasing is not captured; the driver, its windows, its decoder and its queues are updated in place.
- Huffman and HPACK memory use and the static table's contents as such: the table is data of the model.
- Padding, priorities and PUSH_PROMISE on output: never sent. A received PRIORITY is parsed and ignored, a received PUSH_PROMISE is refused with PROTOCOL_ERROR, as in the code.
- ConnectionService.ServeSegmentation: about reads that follow one another; the polls that a read timing out causes are calls of `Settle` in between, which the theorems about runs cover.
- ConnectionHeaders.RefusalExact: that reading as meant needs the tables in step is stated for block size limits of 34 bytes and more; the code only ever uses 65536 (src/config/veysrule.rs:164).
- HttpDate.DateRoundTrip: arithmetic on years and days read from other strings is unbounded here and 64-bit in the code; the statement is about every second that fits in 64 bits.
- Limiter.SlidingBound: floating-point rounding of tokens is not modelled; tokens are real numbers.
- Limiter.InvisibleExact: fixed rate and burst for the whole run, as the hypothesis of a configuration that does not change.
- Http1.HeadClean: the conversion of the method name to an enumeration and the serving loop around the parser are easy members.
- FastCgiReader.UpstreamReader.Poll: parsing of the header lines is a function parameter, and the deadline is an arbitrary predicate.
- RuleCache.FreshRunExactly: symbolic links, parsing of rules and merging along directories are not modelled; whether a file is usable is an arbitrary choice.
- gzip, SHA-1, base64, WebSocket, MIME tables, listings, logs, metrics, proxy pooling and configuration parsing: foreign code or easy members.
