# The hostc tunnel protocol, version 4

A hostc tunnel joins a server (`HostcTunnel`, a Durable Object) and a client (`ClientConnection`) by one to
eight WebSocket data channels. Every public HTTP request becomes a stream with an id, a fixed channel,
sequence numbers in each direction, and two levels of credit: one window per stream and data kind, one per
channel. This project models both endpoints, the FIFO channels between them, and the pieces they share (frame
codec, credit arithmetic, header filters, close reasons, channel choice), and proves what the protocol is for.

## How the model is built

* `ServerSpec` and `ClientSpec` give each endpoint as a value and each handler as one step: the frame handlers,
  one send of a pump (credit check, send and decrement together), and what the public side or the local service
  does. A step answers with the new state, the frames it sends, and the protocol error it raised, if any.
* `Tunnel`, `ClientConnection`, `CreditController`, `StreamRegistry` and `Queue` hold the classes in the form
  of the source: fields updated in place, loops for flushing, clearing windows and aborting streams. Each
  method is proved equal to its step in the value model.
* `ServerSafety`, `ServerOps` and `ServerTheorems` prove what the server keeps against a client that may send
  anything. `ServerRuns` and `RoundRobin` carry that to whole runs.
* `ServerLogs`, `ServerLogOps`, `ServerHonest`, `ServerEvents` and their client counterparts explain each
  endpoint's state by the frames it has sent and received. `System` joins the two explanations through the
  channels: each end has received a prefix of what the other sent. `Runs`, `Evictions` and `Wire` state the
  end-to-end results for every reachable state.
* `Outcomes` and `ClientOutcomes` say what a frame, a read or a failure comes to at either end, for any frame and
  without the functions that handle it. `Notices`, `ResponseNotices` and `RequestKinds` say over whole runs what
  each end tells the other, and when. `Progress` says exactly when a body chunk can be sent, and `Exchange` builds
  a run in which any two bodies arrive complete.
* `Replacement` puts many client connections and their sockets around the server; `Orphans` follows a request
  pump that outlives its connection. `LinkOutcomes` says what the loss of a socket, the alarm, a connecting socket
  and a replacement come to.
* The endpoint machines take a send (credit check, send and decrement) and a flush as one step each. `SplitSend`
  and `SplitRuns` model both ends of a channel without the first and say exactly when a decrement throws and when
  the peer refuses a frame. `SplitFlush` models one stream at the server without the second: its body, both byte
  counts and both inbound windows, and exactly when the body keeps its order and the windows their size.
  `Wakeups` takes the wait for credit apart.
* `Clamps` repeats the server's bookkeeping with exact subtraction; `ClientPending` is the client's buffer for a
  local WebSocket that is not open yet.
* `FrameCodec`, `Chunking`, `CloseReason` and `Headers` model the shared protocol functions. `Utf8` is the encoding
  of section 3 of RFC 3629, with its decoder; close reasons and header sizes are measured in its bytes.

A channel keeps everything ever sent on it together with a cursor, so "in flight" is what follows the cursor.
Some fields only record what happened (bytes written, delivered, dropped as stale, lost); no step branches on
them.

## Where the code falls short of what one would like

* The client takes a late frame of a closed stream for an unknown stream once 4096 later closes have pushed the
  tombstone out (`Evictions.ForgottenExactly`), and closes the connection. With each send and each flush taken as
  one step, and no pump left over from an earlier connection, that is the only way an honest pair fails
  (`Runs.NoProtocolError`); `Counterexamples.LateAbortFailsConnection` is a run that does. The server is immune,
  because it compares with the next id to be issued.
* Sends are not one step in the source. A decrement throws, after its frame went out, exactly when one of the two
  windows no longer covers the chunk (`SplitRuns.CommitThrowsExactly`): the channel window, because enough streams
  passed the check together (`SplitRuns.ChannelPartCanThrow`), or the stream window, because the stream was closed
  since its check (`SplitRuns.ClosedSendersOverdraw`). Either can end in a credit violation at the peer, for all
  valid limits (`SplitRuns.OverdraftEndsInViolation`, `SplitRuns.ClosedSendersEndInViolation`). The frame at the
  head of the wire is refused exactly when the overdrawn bytes outweigh everything else under way
  (`SplitRuns.RefusedExactly`). A live stream's own window is never missing.
* A flush is not one step either. A pull between enqueue and shift delivers the head again, grants its credit again
  and takes its length off again, so that the inbound windows exceed their size and `Math.max(0, ...)` acts
  (`SplitFlush.PullDuplicates`). The body keeps its order exactly as `SplitFlush.BodyIsPrefixExactly` says; windows
  and counts hold while no flusher enqueues before another's shift (`SplitFlush.SingleFlusherKeepsBooks`,
  `SplitFlush.WindowsHoldExactly`).
* RESPONSE_END removes a stream together with its queue, so the public body is complete if and only if nothing
  is queued when END arrives (`Runs.ResponseCompleteAtEnd`, `Counterexamples.EarlyEndDropsResponse`).
* A request pump runs on when its client connection is replaced, and its REQUEST_END goes out on the new
  connection, where the same stream ids are issued again. The new client fails over it, closes the writer of
  another request, or aborts one whose writer is closed already (`Orphans.OrphanFailsNewConnection`, `Orphans.OrphanClosesOtherWriter`,
  `Orphans.StrayEndExactly`).
* `encodeFrame` checks a frame against the default maximum even when a larger one is configured, while the
  decoder accepts the larger one (`FrameCodec.LargeFrameOnlyDecodes`, `FrameCodec.EncodableExactly`).
* The client answers an empty data frame with a zero-byte credit, which cannot be encoded, and so aborts the
  stream (`Counterexamples.EmptyChunkAborts`, `EmptyChunks.EmptyChunksComeFromReads`). It has no check of its own
  against data after REQUEST_END (`Counterexamples.DataAfterEndAccepted`, `Counterexamples.DataAcceptedExactly`).
* The client's pending-limit abort can happen exactly when the stream window and the channel window are both larger
  than the buffer (`ClientPending.PendingAbortExactly`); with the default limits it cannot.
* Valid limits need not let a chunk through: a body chunk larger than the stream window or the channel window is
  never sent, and its stream waits for good (`Progress.OversizeNeverSends`, `Progress.OversizeNeverAnswers`). The
  channel window of a quiet connection is short by the bytes of every frame that was dropped as stale or lost, and
  stays so (`Progress.QuietChannelSends`, `Progress.QuietChannelAnswers`).
* The protocol document describes half-closed WebSocket streams and limits that differ from the code; the code
  is followed.

## Model

| member | source | states |
|---|---|---|
| System.StepFailsOnlyOnEviction | apps/server/src/durable/tunnel.ts:519-688 | with each send and each flush one step: one step of two honest ends either delivers a frame whose tombstone the client has evicted, and then fails as unknown stream, or raises no error and leaves both states explained by what was sent and received |
| Runs.NoProtocolError | packages/client/src/client-connection.ts:188-217 | with each send and each flush one step: in every run of honest peers, with any interleaving of streams, aborts and late frames, a protocol-error branch is taken if and only if the frame delivered belongs to a stream the client has forgotten |
| Evictions.EvictionNeedsManyStreams | packages/client/src/stream-registry.ts:74-85 | a stream is forgotten only when 4096 others are remembered as closed and more than 4096 ids were issued |
| Evictions.ForgottenExactly | packages/client/src/stream-registry.ts:74-85 | in every run the client has forgotten a stream if and only if at least 4096 streams closed at the client after it |
| Evictions.FewStreamsNeverFail | packages/client/src/client-connection.ts:188-217 | with each send and each flush one step: a connection that has opened at most 4096 streams never meets a protocol error |
| Counterexamples.LateAbortFailsConnection | packages/client/src/client-connection.ts:188-200 | for every n above 4096 there is a run of honest peers, with n requests of which the first is cancelled, that ends in the client failing the connection |
| Runs.ChannelLedger | packages/client/src/credit.ts:67-145 | with each send and each flush one step, for each channel and direction, in every reachable state: outbound window, data in flight, credit in flight and stale bytes add up to the receiver's inbound window; inbound window, held and lost bytes add up to the configured size |
| Wire.ChannelCreditIsNeverCapped | packages/protocol/src/index.ts:1064-1069 | with each send and each flush one step: a channel credit frame between honest peers is added in full and never lifts a window above its initial size, so the cap never bites |
| Runs.RequestLedger | packages/client/src/credit.ts:37-48 | for a stream live at the server and live at, or not yet known to, the client: outbound window, data in flight, held bytes and credit in flight add up to the stream window |
| Runs.ResponseLedger | apps/server/src/durable/credit.ts:140-185 | with each flush one step: the same for response bodies, with the server's queued bytes as what is held |
| Runs.RequestBodyExact | apps/server/src/durable/tunnel.ts:804-827 | a local request writer has always taken a prefix of what the pump read; once the client closes it, it has taken all of it |
| Exchange.ExchangeCompletes | packages/client/src/client-connection.ts:253-314 | for any two bodies whose first chunks fit both windows, a run of honest peers from a fresh connection in which the request writer takes exactly the one and is closed, the public body gets exactly the other, and neither end keeps a stream or a frame |
| Progress.QuietChannelSends | apps/server/src/durable/tunnel.ts:880-913 | with each send and each flush one step: on a channel with nothing under way, a live request's next chunk can be sent if and only if the stream window covers it and the channel window covers it together with the bytes dropped at the client |
| Progress.QuietChannelAnswers | packages/client/src/client-connection.ts:541-572 | the same for a response chunk, with the bytes queued at the server counted in |
| Progress.OversizeNeverSends | packages/client/src/credit.ts:75-91 | in no reachable state can a request chunk larger than a configured window be sent |
| Progress.OversizeNeverAnswers | packages/client/src/credit.ts:75-91 | nor a response chunk |
| Notices.ClientAnnounces | packages/client/src/client-connection.ts:696-710 | in every run: for a stream live at the server that the client has given up, for whatever reason, RESPONSE_END or RESPONSE_ABORT is under way on its channel |
| ResponseNotices.LastSentExactly | packages/client/src/client-connection.ts:243-288 | in every run: RESPONSE_END of a stream is sent if and only if its upstream response was read to the end; RESPONSE_ABORT if and only if its local request or a body write failed, an empty chunk was written, or a body frame came for no writer or a closed one, while it was live |
| Notices.AbortSentExactly | apps/server/src/durable/tunnel.ts:828-857 | in every run: REQUEST_ABORT of a stream is sent if and only if its pump failed or its public side went away while it was live |
| Notices.ServerAnnounces | apps/server/src/durable/tunnel.ts:828-857 | in every run: while the client still has such a stream, REQUEST_ABORT is under way on its channel |
| Notices.FailedPumpNeverEnds | apps/server/src/durable/tunnel.ts:804-841 | in every run: a request whose pump failed is never declared ended and its writer is never closed |
| RequestKinds.KindAsOpened | packages/client/src/client-connection.ts:257-262 | in every run: a stream has a request writer at the client exactly as its opener said, and of one opened without a body not a byte is read or written |
| Runs.ResponseBodyPrefix | apps/server/src/durable/tunnel.ts:1004-1106 | with each flush one step: the public body is always a prefix of what the client took from its upstream; for a live stream, delivered plus queued bytes are exactly the payloads received |
| Runs.ResponseCompleteAtEnd | apps/server/src/durable/tunnel.ts:1126-1143 | with each flush one step: when RESPONSE_END reaches a live stream, the body is complete if and only if no byte is queued |
| Counterexamples.EarlyEndDropsResponse | apps/server/src/durable/tunnel.ts:1168-1183 | a run of honest peers in which a one-byte response is read and sent in full but never delivered |
| Counterexamples.EmptyChunkAborts | packages/client/src/client-connection.ts:642-653 | a run of honest peers in which an empty chunk of a request body makes the client abort the stream |
| Counterexamples.FinishWriteKeepsLive | packages/client/src/client-connection.ts:452-467 | a finished write leaves its stream live if and only if the chunk was not empty |
| EmptyChunks.EmptyChunksComeFromReads | packages/client/src/client-connection.ts:452-467 | in every run of honest peers a finished write ends its live stream if and only if the chunk was empty, and then that stream's pump read an empty value |
| Counterexamples.DataAfterEndAccepted | packages/client/src/client-connection.ts:419-438 | a client that has closed its request writer accepts another data frame for it |
| Counterexamples.DataAcceptedExactly | packages/client/src/client-connection.ts:382-418 | which data frames of a live stream are accepted, and that REQUEST_END makes no difference |
| Wire.EveryFrameCrossesTheWire | packages/protocol/src/index.ts:466-504 | every frame either end sends in any run is encoded, and decoded to itself, as long as it is within the size limits |
| Wire.FrameOnWire | packages/protocol/src/index.ts:229-240 | on the wire, the code's high half tells request, response or credit and its low half start, data, end or abort; the header carries the frame's id, number and flags, and data its payload as it is |
| ServerHonest.HonestReceive | apps/server/src/durable/tunnel.ts:552-688 | a frame that honours the client's duties passes every check of the server, and the server's invariant and logs are kept |
| ServerEvents.OwnStepInv | apps/server/src/durable/tunnel.ts:756-857 | what the server does on its own never fails and keeps every duty an honest client relies on |
| ClientHonest.ClientReceives | packages/client/src/client-connection.ts:151-450 | a frame that honours the server's duties fails at the client exactly when its tombstone is gone; otherwise the client's invariant is kept |
| ClientEvents.OwnClientStepInv | packages/client/src/client-connection.ts:253-314 | what the client does on its own never fails and keeps every duty the server relies on; a stream it gives up without having been told to has its END or abort among the frames sent |
| ServerTheorems.StepSafe | apps/server/src/durable/tunnel.ts:453-688 | with each flush one step: whatever frame a client sends on whatever channel, a step that does not fail keeps ids, tombstones, buffer counts and inbound windows consistent |
| ServerRuns.UnknownExactlyAboveNextId | apps/server/src/durable/tunnel.ts:519-539 | against any client: unknown stream is raised exactly for ids never issued, and a frame of a closed stream only adds to the stale count |
| Outcomes.VerdictExactly | apps/server/src/durable/tunnel.ts:519-688 | against any client, in every reachable state: which frames fail the connection, and with which error |
| Outcomes.AcceptedDataOutcome | apps/server/src/durable/tunnel.ts:623-632 | against any client: accepted data is handed on with its credit exactly when the public body has room, otherwise queued last, and the stream survives exactly when neither its own nor the tunnel's queued bytes pass the limit |
| Outcomes.ReadReleases | apps/server/src/durable/tunnel.ts:378-380 | against any client: a read hands on the first min(room + 1, queued) payloads in order, each with its two credit frames, none for an empty one, and leaves the rest |
| Outcomes.AttachReleases | apps/server/src/durable/tunnel.ts:373-377 | against any client: a new public body gets the first queued payload, if any, with its credit |
| Outcomes.StartAllowsBody | apps/server/src/durable/tunnel.ts:558-569 | RESPONSE_START makes the public body possible and changes nothing else |
| Outcomes.LastFrameRemoves | apps/server/src/durable/tunnel.ts:634-680 | RESPONSE_ABORT and an accepted RESPONSE_END remove their stream, deliver nothing and touch no other stream |
| Outcomes.RemovalOutcome | apps/server/src/durable/tunnel.ts:1168-1183 | a cancelled, failed or dropped stream is gone at once with all that was queued for it; nothing else is touched |
| Outcomes.ReceiveSendsCredit | apps/server/src/durable/tunnel.ts:453-688 | whatever arrives, the server answers with nothing but credit |
| ClientOutcomes.VerdictExactly | packages/client/src/client-connection.ts:151-217 | in every reachable state: which frames fail the connection at the client, and with which error |
| ClientOutcomes.StartOutcome | packages/client/src/client-connection.ts:207-262 | a first REQUEST_START makes a stream with or without a writer, as it says, with full windows, and touches no other |
| ClientOutcomes.DataOutcome | packages/client/src/client-connection.ts:382-418 | accepted data goes to its writer, and a stream without one is given up with RESPONSE_ABORT |
| ClientOutcomes.EndOutcome | packages/client/src/client-connection.ts:419-438 | an accepted REQUEST_END closes the writer; a second one gives the stream up with RESPONSE_ABORT |
| ClientOutcomes.AbortOutcome | packages/client/src/client-connection.ts:439-446 | REQUEST_ABORT drops exactly its stream, without an answer |
| ClientOutcomes.WriteOutcome | packages/client/src/client-connection.ts:452-467 | a write that succeeds adds exactly its payload to what was written and returns its credit, also for a stream that is gone; an empty one gives its live stream up |
| ClientOutcomes.WriteFailure | packages/client/src/client-connection.ts:407-416 | a write that fails gives its live stream up and returns no credit |
| ClientOutcomes.StaleOutcome | packages/client/src/client-connection.ts:188-190 | a frame of a remembered stream changes nothing but the count of dropped bytes |
| ServerRuns.OpenIssuesFreshId | apps/server/src/durable/tunnel.ts:765-794 | ids are issued one by one from 1; live and closed ids lie below the next id, which is neither |
| ServerRuns.BufferAccounting | apps/server/src/durable/tunnel.ts:1071-1106 | with each flush one step, against any client: the tunnel-wide byte count is the sum over live streams of the payloads queued and stays within the limit |
| ServerRuns.ClampsNeverAct | apps/server/src/durable/tunnel.ts:1071-1090 | with each flush one step, against any client: every flush a step runs, turn by turn, and every cleanup, also of an overflowing queue, come to the same with exact subtraction |
| Clamps.FlushIsExact | apps/server/src/durable/tunnel.ts:1083-1088 | with each flush one step: wherever the books are in order, no turn of a flush clamps |
| ServerRuns.StreamLimitUnreachable | apps/server/src/durable/tunnel.ts:1092-1101 | with each flush one step: with stream windows no larger than the buffer, data that passes the credit check cannot overflow its own stream's limit |
| ServerRuns.NoPendingEnd | apps/server/src/durable/tunnel.ts:634-669 | no live stream has a declared end; an accepted RESPONSE_END removes its stream at once, and its timeout never arms |
| ServerRuns.NeverDataAfterEnd | apps/server/src/durable/tunnel.ts:592-599 | the data-after-end branch is unreachable, whatever the client sends |
| ServerRuns.QueueIsBlocked | apps/server/src/durable/tunnel.ts:1071-1090 | with each flush one step: whatever is queued is not deliverable between steps, so nothing overtakes it; inbound window plus queued bytes is the stream window |
| RoundRobin.EveryChannelInTurn | packages/protocol/src/index.ts:872-884 | over any k consecutive choices with safe indices each of n channels is chosen floor(k/n) or ceil(k/n) times |
| RoundRobin.ChoiceMatchesOpen | packages/protocol/src/index.ts:872-884 | the server can open a stream exactly when the choice succeeds, and uses it |
| RoundRobin.StreamKeepsItsTurn | apps/server/src/durable/tunnel.ts:760-776 | while the object stays loaded, in every run, against any client, stream i is on channel (i - 1) mod n for as long as it lives |
| Tunnel.HostcTunnel.constructor | apps/server/src/durable/tunnel.ts:1196-1211 | a new tunnel with a connection is the initial server state, with no pump left over |
| Tunnel.HostcTunnel.RememberClosedStream | apps/server/src/durable/tunnel.ts:1479-1490 | the closed id becomes the newest, and only the oldest of more than 4096 is dropped |
| Tunnel.HostcTunnel.Cleanup | apps/server/src/durable/tunnel.ts:1168-1183 | in place equals the step on values; an unknown id changes nothing |
| Tunnel.HostcTunnel.CreateStream | apps/server/src/durable/tunnel.ts:756-802 | fails and changes nothing exactly when no channel can be chosen; otherwise the stream has the next id, is opened as the server's step opens it, and announces itself |
| Tunnel.HostcTunnel.AddStream | apps/server/src/durable/tunnel.ts:764-795 | the new stream is on the channel in turn and has full windows |
| Tunnel.HostcTunnel.FinishStreamDirection | apps/server/src/durable/tunnel.ts:1126-1150 | removes the stream exactly when its declared end has been reached |
| Tunnel.HostcTunnel.EnqueueToBody | apps/server/src/durable/tunnel.ts:1018-1024 | the payload is appended to the public body and exactly its length is credited back |
| Tunnel.HostcTunnel.Deliver | apps/server/src/durable/tunnel.ts:1004-1027 | delivers if and only if the body exists and has room, and otherwise changes nothing |
| Tunnel.HostcTunnel.FlushOne | apps/server/src/durable/tunnel.ts:1073-1088 | one turn with nothing in between: the head leaves the queue only after it was delivered |
| Tunnel.HostcTunnel.FlushPendingFrames | apps/server/src/durable/tunnel.ts:1071-1090 | run to completion, the loop stops exactly where the recursive flush does, with the same state and the same credit frames |
| Tunnel.HostcTunnel.EnqueuePendingFrame | apps/server/src/durable/tunnel.ts:1092-1106 | equals the step on values, whose outcome is `Outcomes.AcceptedDataOutcome`: the payload is queued last, or the stream goes exactly when either limit would be passed |
| Tunnel.HostcTunnel.HandleResponseData | apps/server/src/durable/tunnel.ts:570-633 | checks in the order of the source, each with its own error, then delivers or queues |
| Tunnel.HostcTunnel.HandleResponseEnd | apps/server/src/durable/tunnel.ts:634-669 | checks kind and last sequence number, then ends the stream |
| Tunnel.HostcTunnel.DispatchFrame | apps/server/src/durable/tunnel.ts:552-688 | each response frame type has its own effect; any other type is an error |
| Tunnel.HostcTunnel.AbortAllStreams | apps/server/src/durable/tunnel.ts:1257-1261 | equals cleaning up every issued id, oldest first |
| Tunnel.HostcTunnel.FailClientConnection | apps/server/src/durable/tunnel.ts:1219-1245 | no stream, no channel and no window is left |
| Tunnel.HostcTunnel.ReplaceClientConnection | apps/server/src/durable/tunnel.ts:1185-1217 | ids, channels, tombstones and windows start anew after every stream was aborted; the pumps still running are kept aside |
| Tunnel.HostcTunnel.HandleFrame | apps/server/src/durable/tunnel.ts:453-550 | a frame without error has the effect of the step on values; one with an error fails the connection and sends nothing |
| Tunnel.HostcTunnel.SendPumpChunk | apps/server/src/durable/tunnel.ts:872-918 | one turn of the send loop with nothing in between: throws if the stream is gone, parks if a window is too small, otherwise sends one chunk with the next number and charges both windows |
| Tunnel.HostcTunnel.PostPumpChunk | apps/server/src/durable/tunnel.ts:891-917 | the half of the turn after the waits, in any state: the frame goes out with the next number, then the windows are charged, or the decrement throws and the loop does not advance |
| Tunnel.HostcTunnel.AbortPublicStream | apps/server/src/durable/tunnel.ts:843-857 | the stream goes and the local side is told |
| Tunnel.HostcTunnel.AttachPublicBody | apps/server/src/durable/tunnel.ts:373-377 | equals the step on values, whose outcome is `Outcomes.AttachReleases`: the new public body gets the first payload queued before it existed |
| Tunnel.HostcTunnel.PullPublicBody | apps/server/src/durable/tunnel.ts:378-380 | equals the step on values, whose outcome is `Outcomes.ReadReleases`: as many queued payloads as now fit are handed on, with their credit |
| ClientConnection.ClientConnection.constructor | packages/client/src/client-connection.ts:89-91 | a connected client starts with no stream and full channel windows |
| ClientConnection.ClientConnection.CleanupStream | packages/client/src/client-connection.ts:720-731 | registry and credit forget the stream together; an unknown id changes nothing |
| ClientConnection.ClientConnection.AbortResponseStream | packages/client/src/client-connection.ts:696-710 | the server is told if and only if the stream was still live |
| ClientConnection.ClientConnection.HandleRequestStart | packages/client/src/client-connection.ts:207-251 | a second start is an error and changes nothing; the first seeds full windows |
| ClientConnection.ClientConnection.HandleRequestData | packages/client/src/client-connection.ts:382-418 | flags, credit and sequence are checked in this order; then a write is in progress, or a stream without writer is aborted |
| ClientConnection.ClientConnection.HandleRequestEnd | packages/client/src/client-connection.ts:419-438 | checks kind and last sequence number and closes the writer if there is one; a writer that is closed already aborts the stream |
| ClientConnection.ClientConnection.CloseWriter | packages/client/src/client-connection.ts:506-511 | closes an open writer; on a closed one the close rejects, the stream is dropped and the server told |
| ClientConnection.ClientConnection.DispatchStreamFrame | packages/client/src/client-connection.ts:377-450 | each request frame type has its own effect; any other type is an error |
| ClientConnection.ClientConnection.AbortAllStreams | packages/client/src/client-connection.ts:733-737 | equals cleaning up exactly the live streams, one after the other, and leaves none |
| ClientConnection.ClientConnection.Close | packages/client/src/client-connection.ts:139-149 | closes once; afterwards no stream is live and nobody is parked |
| ClientConnection.ClientConnection.HandleDataMessage | packages/client/src/client-connection.ts:151-205 | a frame without error has the effect of the step on values; an error closes the connection with no stream left |
| ClientConnection.ClientConnection.FinishWriting | packages/client/src/client-connection.ts:452-467 | the bytes written are credited back exactly, even after the stream died; an empty chunk aborts its stream |
| ClientConnection.ClientConnection.FailWriting | packages/client/src/client-connection.ts:407-416 | a failed write aborts the stream and returns no credit |
| ClientConnection.ClientConnection.SendDataChunk | packages/client/src/client-connection.ts:533-577 | one turn of the send loop with nothing in between: parks if a window is too small, otherwise sends one chunk with the next number and charges both windows |
| ClientConnection.ClientConnection.PostDataChunk | packages/client/src/client-connection.ts:552-576 | the half of the turn after the waits, in any state: the frame goes out with the next number, then the windows are charged, or the decrement throws and the loop does not advance |
| ClientConnection.ClientConnection.SendResponseEnd | packages/client/src/client-connection.ts:283-287 | END announces the last sequence number sent, and the stream is forgotten |
| StreamRegistry.StreamRegistry.SetStream | packages/client/src/stream-registry.ts:39-42 | the id is live and no longer remembered as closed |
| StreamRegistry.StreamRegistry.DeleteStream | packages/client/src/stream-registry.ts:60-85 | a live id becomes the newest tombstone; any other id changes nothing |
| StreamRegistry.RegistryRemembersNewest | packages/client/src/stream-registry.ts:39-85 | after any sequence of calls the tombstones are distinct, at most 4096, not live, and the newest part of the history of ids closed for good, in the order of their last close |
| StreamRegistry.RegistryForgetsOnlyOldest | packages/client/src/stream-registry.ts:74-85 | if no closed id is reopened, exactly the newest 4096 of that history are remembered |
| StreamRegistry.HistoryAfterCall | packages/client/src/stream-registry.ts:39-68 | the history itself: an effective close appends, a reopening removes, nothing else matters, and a live id is never in it |
| StreamRegistry.LiveMatches | packages/client/src/stream-registry.ts:44-58 | an id is live exactly when it was opened and not closed since |
| CreditController.CreditController.WakeWaiters | packages/client/src/credit.ts:147-152 | everyone parked is woken and nobody stays parked, as in the wait specification |
| CreditController.CreditController.ResetWindows | packages/client/src/credit.ts:19-35 | exactly the given channels have full windows, no stream has any, everyone is woken |
| CreditController.CreditController.SeedStream | packages/client/src/credit.ts:37-48 | all four kinds of the stream get full windows in both directions, and no other key changes |
| CreditController.CreditController.DeleteStream | packages/client/src/credit.ts:50-56 | all keys of the stream go, no other key changes, everyone is woken; the call is the delete event of the wait specification |
| CreditController.CreditController.ApplyStreamCredit | packages/client/src/credit.ts:58-65 | adds up to the cap, recreating a deleted key, and wakes everyone |
| CreditController.CreditController.ApplyChannelCredit | packages/client/src/credit.ts:67-73 | adds up to the cap and wakes everyone |
| CreditController.CreditController.LookForCredit | packages/client/src/credit.ts:75-91 | one look of the wait loop throws, returns or parks as the wait specification says, and the parked set stays exactly its parked senders |
| CreditController.CreditController.DecrementWindows | packages/client/src/credit.ts:93-108 | fails when a window is too small, with the stream window charged before the channel window is looked at |
| CreditController.CreditController.ConsumeWindows | packages/client/src/credit.ts:110-125 | charges both windows or neither |
| CreditController.CreditController.GrantWindows | apps/server/src/durable/credit.ts:157-185 | restores both windows and announces both, or does nothing for no bytes |
| Wakeups.HappenKeeps | packages/client/src/credit.ts:50-91 | every controller call keeps: a parked sender really cannot send |
| Wakeups.NeverLosesWakeup | packages/client/src/credit.ts:75-91 | over every sequence of calls that seeds only fresh streams, no wakeup is lost |
| Wakeups.RaisingWakes | packages/client/src/credit.ts:50-73 | whatever raises a parked sender's window or deletes its stream wakes it |
| Wakeups.ReturnsOnlyWithCredit | packages/client/src/credit.ts:75-91 | the wait returns only with both windows large enough and the stream available |
| Wakeups.LooksExactly | packages/client/src/credit.ts:75-91 | over every sequence of calls that seeds only fresh streams: a waiting sender whose windows cover its amount has been woken, and its next look returns; one whose windows do not parks again; without its stream it throws |
| Wakeups.WindowsCapped | packages/protocol/src/index.ts:1064-1069 | whatever is granted, no window exceeds MAX_CREDIT_BYTES, and a credit frame adds its amount, or lifts the window to that maximum |
| SplitRuns.StreamPartNeverThrows | packages/client/src/client-connection.ts:541-572 | however senders, streams opening and closing, and credit interleave between check and decrement, a live stream's window still covers the chunk, so the decrement succeeds if and only if the channel window does |
| SplitRuns.SplitLedger | packages/client/src/credit.ts:93-145 | without atomic sends: outbound window, wire, returning credit, stale and capped bytes add up to the inbound window plus the bytes whose decrement threw |
| SplitRuns.RefusedExactly | packages/client/src/client-connection.ts:394-403 | the peer refuses the next frame of a stream it knows if and only if the overdrawn bytes outweigh the sender's window, the rest of the wire and the returning, stale and capped credit |
| SplitRuns.CommitThrowsExactly | packages/client/src/credit.ts:93-108 | in every reached state, sending one checked chunk throws if and only if its stream window or the channel window no longer covers it, and the former only for a stream closed since its check |
| SplitRuns.CommitsThrowExactly | packages/client/src/credit.ts:93-108 | sending all that is checked throws if and only if some chunk has lost its stream's window or all together exceed the channel window |
| SplitRuns.DrainViolatesExactly | apps/server/src/durable/tunnel.ts:600-614 | streams open or closed at either end: if all that is checked is sent and arrives at a peer that has seen the streams start, the connection ends in a credit violation if and only if what belongs to streams live at the peer exceeds its window |
| SplitRuns.CarefulRunsAreSafe | apps/server/src/durable/tunnel.ts:880-913 | if no check overbooks the window and no stream closes under a checked chunk, no decrement throws and no credit violation occurs, in any run |
| SplitRuns.ClosedSendersOverdraw | packages/client/src/client-connection.ts:541-572 | for all valid limits, a stream that closes between check and send sends all the same, and its decrement throws although the chunk fits the channel window |
| SplitRuns.ClosedSendersEndInViolation | packages/client/src/client-connection.ts:394-403 | enough such streams, one after the other, end in a credit violation at the peer |
| SplitRuns.ChannelPartCanThrow | packages/client/src/credit.ts:93-108 | for all valid limits a run from a fresh connection in which streams open, pass their checks and send, and a decrement throws with every frame out |
| SplitRuns.OverdraftEndsInViolation | packages/client/src/client-connection.ts:394-403 | the same run continues to a credit violation at the peer |
| SplitFlush.BodyIsPrefixExactly | apps/server/src/durable/tunnel.ts:1071-1090 | however flushers, reads and arrivals interleave, the public body is a prefix of the accepted payloads if and only if no flusher enqueues before another's shift and no data passes a queue that is not fully enqueued |
| SplitFlush.SingleFlusherKeepsBooks | apps/server/src/durable/tunnel.ts:1071-1106 | if no flusher enqueues before another's shift, both byte counts are what is queued, no clamp acts, and both inbound windows lack exactly what waits |
| SplitFlush.WindowsHoldExactly | apps/server/src/durable/tunnel.ts:1018-1024 | with no empty payload, the inbound windows and the waiting bytes come to their configured size if and only if no flusher enqueued before another's shift, and otherwise exceed it |
| SplitFlush.HarmlessIsSingle | apps/server/src/durable/tunnel.ts:1071-1090 | a run that keeps the body in order also keeps windows and counts |
| SplitFlush.PullDuplicates | apps/server/src/durable/tunnel.ts:1083-1086 | for all valid limits a run in which a pull between enqueue and shift delivers a byte twice, grants its credit twice, and the clamp acts |
| SplitFlush.WholeTurnsAreHarmless | apps/server/src/durable/tunnel.ts:1077-1083 | a turn whose halves are not separated keeps the body in order |
| ClientPending.PendingAbortExactly | packages/client/src/client-connection.ts:480-493 | the pending-limit abort can happen if and only if the stream window and the channel window are both larger than the buffer |
| ClientPending.PendingAccounting | packages/client/src/client-connection.ts:480-504 | the byte count is the sum of the lengths queued, exactly what the stream's window lacks, and with the other streams' share what the channel's window lacks |
| Replacement.ReplacedSocketsDoNotInterfere | apps/server/src/durable/tunnel.ts:453-464 | erasing from any run all that sockets of other connections did leaves a possible run with the same active id, the same streams, credit and counters, and the same leftover pumps and frames of theirs |
| Replacement.ForeignStaysAlike | apps/server/src/durable/tunnel.ts:177-207 | a message, close, error or connect of another connection's socket changes neither the active id nor the server, nor any own socket |
| Replacement.AbortLeavesNothing | apps/server/src/durable/tunnel.ts:1257-1261 | aborting all streams brings the waiting-byte count back to exactly zero |
| Replacement.ReplacementStartsAfresh | apps/server/src/durable/tunnel.ts:1185-1217 | after any run over any connections, the server of a replacement is the initial one, and the pumps still running, and only those, survive beside it |
| LinkOutcomes.SocketLossOutcome | apps/server/src/durable/tunnel.ts:177-207 | over any connections: when a socket of the active connection closes, errs, or carries text or garbage, the connection is gone if and only if the socket is its channel's current one; then no stream, window or open socket of it is left, and otherwise only that socket is closed |
| LinkOutcomes.FrameOutcome | apps/server/src/durable/tunnel.ts:453-550 | a frame reaches the server exactly when its socket is current, and ends the connection exactly when the server refuses it |
| LinkOutcomes.AlarmOutcome | apps/server/src/durable/tunnel.ts:210-225 | the alarm ends the active connection if and only if one of its channels has no open socket |
| LinkOutcomes.ReadyExactly | apps/server/src/durable/tunnel.ts:1263-1293 | a connection is ready if and only if every one of its channels has an open socket |
| LinkOutcomes.OneCurrentSocket | apps/server/src/durable/tunnel.ts:1313-1321 | every channel with a socket of the active connection has exactly one current socket |
| LinkOutcomes.ConnectOutcome | apps/server/src/durable/tunnel.ts:249-306 | a data socket is accepted exactly for the active connection and one of its channels; then it closes the earlier ones of its channel and no other, and is current exactly when none of them has a greater generation |
| LinkOutcomes.ReplaceOutcome | apps/server/src/durable/tunnel.ts:1185-1217 | a replacement closes every socket of the connection it replaces and starts the new one afresh |
| Orphans.StraysComeFromSurvivors | apps/server/src/durable/tunnel.ts:818-827 | in every run over any connections, each frame a leftover pump put on the active connection is the REQUEST_END of exactly one pump that was running when an earlier connection was replaced, on its channel and with its last number; no pump ends twice |
| Orphans.OrphanFailsNewConnection | apps/server/src/durable/tunnel.ts:1185-1217 | for all valid limits a run in which the pump of a replaced connection makes the new client fail its connection |
| Orphans.OrphanClosesOtherWriter | packages/client/src/client-connection.ts:506-513 | a run after which such a frame closes the writer of another request whose pump is still running |
| Orphans.StrayEndExactly | packages/client/src/client-connection.ts:419-438 | when a stray REQUEST_END does not fail the client, when it changes neither streams nor writers, and when it aborts the stream because its writer was closed already |
| Queue.OneAtATimeInArrivalOrder | packages/client/src/queue.ts:4-12 | between two clears a channel never has two handlers running, and a waiting one may start exactly when all earlier ones of its channel since the last clear have settled, failed or not |
| Queue.RunsInOrder | packages/client/src/queue.ts:4-16 | over any sequence of enqueue, clear, start and settle, a started handler finds all earlier ones of its lane settled |
| Queue.DataChannelQueue.EnqueueTask | packages/client/src/queue.ts:4-12 | the new task is chained to the channel's last one |
| Queue.DataChannelQueue.ClearChains | packages/client/src/queue.ts:14-16 | later tasks wait for no earlier one |
| FrameCodec.CodesAreInverse | packages/protocol/src/index.ts:229-247 | type and code tables are inverse to each other |
| FrameCodec.HeaderFaultIsGrammar | packages/protocol/src/index.ts:466-504 | the checks accept exactly the headers of a short grammar |
| FrameCodec.EncodableExactly | packages/protocol/src/index.ts:332-395 | a frame is encoded if and only if its header is well formed and its payload within both the given and the default maximum |
| FrameCodec.NumberOfBigEndian | packages/protocol/src/index.ts:391-393 | a number that fits is read back |
| FrameCodec.BigEndianOfNumber | packages/protocol/src/index.ts:422-424 | bytes read as a number are written back |
| FrameCodec.DecodeAfterEncode | packages/protocol/src/index.ts:332-456 | whatever can be encoded is decoded to the same frame |
| FrameCodec.EncodeAfterDecode | packages/protocol/src/index.ts:438-456 | every accepted byte string is the encoding of its frame, and can be encoded again if and only if its payload is within the default maximum |
| FrameCodec.LargeFrameOnlyDecodes | packages/protocol/src/index.ts:357-382 | with a larger maximum there are frames that can be decoded but not encoded |
| FrameCodec.LayoutOfFrame | packages/protocol/src/index.ts:332-395 | the value of every byte of an encoded frame: magic, version, code, flags, then stream id, sequence number and length most significant byte first, then the payload |
| FrameCodec.SetBigEndian | packages/protocol/src/index.ts:391-393 | writes exactly the named bytes of the buffer, most significant first |
| FrameCodec.EncodeFrameHeaderInto | packages/protocol/src/index.ts:371-395 | the buffer holds the 25 header bytes |
| FrameCodec.EncodeFrameInto | packages/protocol/src/index.ts:332-369 | the buffer holds the encoded frame, or the first failing check is named |
| Chunking.ChunksRejoin | packages/client/src/client-connection.ts:533-577 | the payloads of the frames concatenate to what was sent |
| Chunking.ChunksFit | packages/client/src/client-connection.ts:537-540 | every chunk but the last is full, none is larger, and only an empty payload has an empty chunk |
| Chunking.ChunkCount | packages/client/src/client-connection.ts:533-577 | a payload takes max(1, ceil(n / maxFrameBytes)) frames |
| Chunking.ChunksByTurns | apps/server/src/durable/tunnel.ts:872-918 | the chunks are what the endpoints' send steps take turn by turn |
| Chunking.MessageIsOneFrame | packages/protocol/src/index.ts:814-816 | under valid limits a legal WebSocket message is one frame |
| Chunking.SendDataPayload | packages/client/src/client-connection.ts:520-578 | whatever stops the loop, the frames sent are the first of those that carry the payload, with consecutive numbers; each way to stop is characterised exactly |
| CloseReason.ReasonIsLongestPrefix | packages/protocol/src/index.ts:1121-1139 | the reason is the one-line text cut where no surrogate pair is cut, its UTF-8 form has at most 123 bytes, and that of every longer such cut has more |
| CloseReason.NormalizingTwice | packages/protocol/src/index.ts:1121-1139 | normalizing is idempotent |
| CloseReason.BytesDecode | packages/protocol/src/index.ts:1117-1119 | the bytes counted decode, by section 3 of RFC 3629, to the text's scalar values |
| CloseReason.UnitsOfPoints | packages/protocol/src/index.ts:1109-1111 | those scalar values are the text itself, with U+FFFD for each lone surrogate and nothing else changed |
| Utf8.DecodeAfterEncodeAll | packages/protocol/src/index.ts:1109-1115 | decoding the UTF-8 bytes of any scalar values gives them back |
| Utf8.EncodeAfterDecodeAll | packages/protocol/src/index.ts:1109-1115 | the decoder accepts nothing but such encodings |
| CloseReason.NormalizeCloseReason | packages/protocol/src/index.ts:1121-1139 | the early return and the loop both give the text of `CloseReason.ReasonIsLongestPrefix` |
| Headers.CheckHeaders | packages/protocol/src/index.ts:953-974 | the early exits do not change the verdict |
| Headers.ByteLengthIsUtf8 | packages/protocol/src/index.ts:1117-1119 | the sizes that the limits on names, values and totals count are those of the UTF-8 form |
| Headers.SplitAtCommas | packages/protocol/src/index.ts:986 | splitting loses nothing and leaves no comma |
| Headers.FilterIsSublist | packages/protocol/src/index.ts:995-1058 | each filter keeps exactly the headers it does not name, in order, and the result is valid; it fails exactly on invalid headers |
| Headers.KeptExactly | packages/protocol/src/index.ts:976-1058 | a header is kept if and only if no Connection header names it and its name is none of the fixed names of the filter |
| Headers.NothingNamedSurvives | packages/protocol/src/index.ts:983-1000 | no header named by any Connection value survives, nor does Connection |
| Headers.FilterTwice | packages/protocol/src/index.ts:1027-1058 | each filter is idempotent, so filtering at both ends equals filtering once |
| Headers.FilterHopByHopHeaders | packages/protocol/src/index.ts:976-1001 | the two passes compute the filter |

## Left out

- WebSocket streams: the endpoint machines carry HTTP streams only; chunking, credit and codec cover both kinds. A WebSocket accept and its END are separated by awaits, so end-to-end claims about them would not hold as stated.
- Runs.NoProtocolError: assumes that each send and each flush is one step; `SplitRuns` and `SplitFlush` say exactly what can happen otherwise.
- Runs.ChannelLedger: assumes that each send and each flush is one step; `SplitRuns.SplitLedger` and `SplitFlush.WindowsHoldExactly` are the ledgers without that.
- Wire.ChannelCreditIsNeverCapped: assumes that each send and each flush is one step; without that a window can exceed its size.
- Runs.ResponseLedger: assumes that each flush is one step; `SplitFlush.WindowsHoldExactly` is the condition without that.
- Runs.ResponseBodyPrefix: assumes that each flush is one step; `SplitFlush.BodyIsPrefixExactly` is the condition without that.
- Runs.ResponseCompleteAtEnd: assumes that each flush is one step; an END between enqueue and shift meets a complete body with a byte still queued.
- ServerTheorems.StepSafe: assumes that each flush is one step, as do the results about whole runs of the server that rest on it.
- ServerRuns.BufferAccounting: assumes that each flush is one step; `SplitFlush.SingleFlusherKeepsBooks` is the condition without that.
- ServerRuns.ClampsNeverAct: assumes that each flush is one step; `SplitFlush.PullDuplicates` is a run without that in which a clamp acts.
- Clamps.FlushIsExact: assumes that each flush is one step.
- ServerRuns.StreamLimitUnreachable: assumes that each flush is one step.
- ServerRuns.QueueIsBlocked: assumes that each flush is one step.
- RoundRobin.StreamKeepsItsTurn: assumes that the object stays loaded; a reload restarts the channel index while ids go on.
- ClientConnection.ClientConnection.HandleRequestEnd: a close of the writer that rejects for another reason than being closed already is the upstream failure that may follow at once.
- System.StepFailsOnlyOnEviction: assumes that each send and each flush is one step.
- Progress.QuietChannelSends: assumes that each send and each flush is one step.
- Progress.QuietChannelAnswers: assumes that each send and each flush is one step.
- Exchange.ExchangeCompletes: says that some run completes, not that every run does; schedulers and fairness are not part of the model.
- Public responses: whether the public body is closed or errored at the end is not part of the model, which keeps what it was given.
- Evictions.FewStreamsNeverFail: assumes that each send and each flush is one step.
- Tunnel.HostcTunnel.SendPumpChunk: the look for credit and the send follow each other at once; `PostPumpChunk` is the second half on its own.
- ClientConnection.ClientConnection.SendDataChunk: the look for credit and the send follow each other at once; `PostDataChunk` is the second half on its own.
- Tunnel.HostcTunnel.FlushOne: delivery and shift follow each other at once; `SplitFlush` separates them.
- Tunnel.HostcTunnel.FlushPendingFrames: runs to completion, without the awaits of the loop, and a read of the public body includes the flush it triggers.
- The split models: `SplitRuns` has credit windows, wire and returning credit but no stream contents; `SplitFlush` has one stream while it lives, with the other streams as bytes.
- Grants: the two credit frames of a grant go out in the step that grants; the source sends them one after the other, and other frames may come between.
- Timeouts, socket backpressure and delivery failures: they appear only as the abort events they cause, possible at any time.
- Closing a request writer: taken as immediate.
- Frame size: the send steps of the machines do not stop at the default maximum; the abort that follows there is one of the pump failures they allow. `Chunking.SendDataPayload` has the exact condition.
- Metadata text: frames carry the decoded fields; JSON, its grammar and its size limit are not modelled, except that a zero-byte credit cannot be encoded.
- Stream records: values in a map, so the identity check by which a stale record is told from a live one is not modelled.
- Sequence numbers and ids: unbounded, with a guard on the steps where the source's encoder would refuse.
- Storage, hibernation and alarms as such: loading state is part of the step, and the alarm is one event.
- Socket generations: taken from the event; that they grow is not claimed.
- Reconnecting, tunnel creation, tokens, routing, logging, error pages, configuration and the command line.
- Case folding, trimming and lone surrogates in header values: folding and trimming are arbitrary functions of the host; text is a sequence of Unicode scalar values there and of UTF-16 units in close reasons.
- `headersToEntries`, public URLs and the validators of ids and targets: they would only add easy members.
