# FreeRDS core bookkeeping, modelled in Dafny

This project models the sequential bookkeeping at the heart of FreeRDS, the
RDP server that sits between RDP clients, per-session back-ends and a session
manager. It covers six parts:

- **pbRPC transaction engine** of the front-end process (`freerds/core/rpc.c`).
  - A 32-bit tag counter.
  - A table from tag to outstanding transaction.
  - A FIFO write queue.
  - Registration of synchronous and asynchronous calls.
  - Completion of a transaction by the tag of its response.
  - Forced completion of every transaction on reconnect.
  - Dispatch of inbound requests.
  - The synchronous call's result-selection rule.
  - The write-queue drain of the I/O loop.
- **Channel provisioning** (`freerds/core/channels.c`).
  - The GUID-to-channel table and its accept rule.
  - The search for a bindable ephemeral port.
  - The per-connection channel list.
  - The partial-send loop from channel to socket.
  - The length-prefixed forwarding from socket to channel.
  - The service of all channel sockets, which drops the first failing one.
- **Connection controller** (`freerds/core/process.c`).
  - Activation.
  - Post-connect.
  - Frame acknowledgement.
  - The three notifications from the session manager: endpoint switch, logoff and channel open.
  - The connection thread's event loop and its teardown.
- **Encoder flow control** (`freerds/core/encoder.c`).
  - Frame-rate adaptation and frame-id allocation.
  - Tile-grid sizing and layout.
  - The codec set kept by prepare, uninit and reset.
- **Unicode keyboard input of the X11 module** (`module/X11/service/rdpInputUnicode.c`).
  - The 773-entry keysym table, whose order is proved.
  - `compare_ucs`, and `bsearch` over the table.
  - `unicode_to_keysym`.
  - The press/release sequence emitted for one character.
  - The posting queue.
- **Session-manager handlers**.
  - The three incoming calls `CallInDisconnectUserSession`, `CallInLogOffUserSession` and `CallInEndSession`.
  - The tasks `TaskEndSession` and `TaskSwitchTo`.
  - Each is a transition over the session store (session id → session) and the connection store (connection id → session id).

Files and modules:

| file | module | contents |
|---|---|---|
| `base.dfy` | `Base` | `Option`, 32-bit and byte types, 32-bit wrap-around, two's complement, first-occurrence removal |
| `rpc.dfy` | `PbRpc` | message ids, the `Engine` class, sync-call result selection, the drain finding |
| `connection.dfy` | `Rds` | `Channel`, `Connection` (`rdsConnection`) and `Server` classes, connector lifecycle log |
| `channels.dfy` | `Channels` | `ChannelServer` class, port search, channel read/write paths |
| `process.dfy` | `Process` | activation, notifications, loop step, teardown |
| `encoder.dfy` | `Encoder` | `Encoder` class, fps and grid arithmetic |
| `keysym_table.dfy` | `KeysymTable` | the table, entry for entry, with its order proved chunk by chunk |
| `input_unicode.dfy` | `InputUnicode` | lookup, key sequences, posting queue |
| `app_context.dfy` | `SessionManager` | the stores, property map, task and outgoing queues |
| `manager_calls.dfy` | `ManagerCalls` | the handler and task classes |

### How the model treats the outside world

- **Outside results become parameters.** Threads, pipes, sockets, `malloc`, codec constructors and X display calls are not modelled. Each result they give the core is a parameter of the model:
  - whether a write succeeded or an allocation failed;
  - what `recv` returned;
  - what the session manager answered;
  - which keycode X assigns.
- **Callbacks are recorded in logs.**
  - The transaction callbacks are appended to the `completions` log.
  - Calls to the session manager and responses to it are kept in sequences on the connection.
  - Virtual-channel writes are kept in a sequence on the connection.
  - Connector creation and release are kept in `backendLog`.
- **The sync call is split at its wait.**
  - `BeginCall` runs the part before the wait.
  - `EndCall` runs the part after it.
  - `CallMethod` joins them. Between them, one of three things happens on the I/O thread: a response arrives, the transport fails, or nothing arrives.
- **Where this model chooses values.**
  - The FDSAPI message ids, the status codes and the PBRPC codes are defined in headers that are not part of this model, so the model fixes its own distinct values.
  - A response id is its request id with the top bit `0x80000000` set.
  - The codec bits are modelled as a set of four codecs.

## Model

| member | source | states |
|---|---|---|
| Base.Inc32 | freerds/core/rpc.c:107-110 | The tag counter steps by one modulo 2^32 and wraps to 0 only from 0xFFFFFFFF. |
| Base.ToInt32 | freerds/core/channels.c:388-390 | Reading a 32-bit pattern as a C `int` gives the unique value in [-2^31, 2^31) congruent to it. |
| Base.ToU32 | freerds/core/channels.c:388-390 | Converting an `int` to `UINT32` is the inverse of ToInt32 on the `int` range. |
| Base.RemoveFirst | freerds/core/channels.c:326-330 | Removing the first occurrence leaves the list alone if the item is absent, and otherwise removes exactly one copy (as multisets). |
| Base.RemoveFirstAt | freerds/core/channels.c:326-330 | When the first occurrence is at index i, removal cuts out exactly index i and keeps the rest in order. |
| PbRpc.RequestId | freerds/core/rpc.c:538 | A request id never has the response bit set and leaves request ids unchanged. |
| PbRpc.ResponseId | freerds/core/rpc.c:281 | A response id has the response bit set and maps back to the same request id. |
| PbRpc.TagsIssuedAt | freerds/core/rpc.c:107-110 | The i-th tag issued after counter t0 is (t0 + i + 1) mod 2^32. |
| PbRpc.TagsIssuedDistinct | freerds/core/rpc.c:107-110 | Within any 2^32 consecutive calls, no tag is issued twice. |
| PbRpc.Engine.constructor | freerds/core/rpc.c:156-167 | A new engine is disconnected, with tag 0, an empty table and an empty queue. |
| PbRpc.Engine.GetTag | freerds/core/rpc.c:107-110 | The returned tag is the new counter, which is the old counter plus one with wrap-around. |
| PbRpc.Engine.CallMethodAsync | freerds/core/rpc.c:586-616 | Disconnected: nothing is registered or queued, and the callback is completed once with a transport error. Connected: exactly one entry under the fresh tag, and one request message with that callId and success status. |
| PbRpc.Engine.BeginCall | freerds/core/rpc.c:517-549 | Disconnected: nothing changes. Connected: the local waiter is registered under the fresh tag and one request is queued. |
| PbRpc.Engine.EndCall | freerds/core/rpc.c:551-584 | After the wait, the entry is removed if still present (timeout), and the result is SyncCallResult of the callbacks the waiter received. |
| PbRpc.SyncResultWithoutCompletion | freerds/core/rpc.c:551-564 | With no completion for the waiter, the sync call reports a call timeout and no response. |
| PbRpc.SyncResultFromLastCompletion | freerds/core/rpc.c:509-515 | The sync call reports the status and payload of the last completion the waiter received: the response status if a message came, else the reason. |
| PbRpc.Engine.CallMethod | freerds/core/rpc.c:517-584 | The whole sync call. Disconnected: transport error and nothing changes. Answered: the response's status and payload. Transport failure: transport error. No answer: call timeout, with the entry removed. Waiters stay keyed by their tag. |
| PbRpc.Engine.ProcessResponse | freerds/core/rpc.c:226-246 | An unknown callId returns 1 and changes nothing. A known one removes exactly that entry and completes its callback once with the message's status. |
| PbRpc.HandlerFor | freerds/core/rpc.c:306-334 | A request type has a handler if and only if it is one of the dispatched request ids. |
| PbRpc.ResponseFrame | freerds/core/rpc.c:273-302 | A reply has the response id, the same callId and the given status. It carries the payload if and only if the status is 0 and a payload exists. |
| PbRpc.Engine.SendResponse | freerds/core/rpc.c:273-302 | Exactly the ResponseFrame is written when the write succeeds; the result is 0 or -1 accordingly. |
| PbRpc.Engine.ProcessRequest | freerds/core/rpc.c:306-348 | An unknown type gets a NOT_FOUND reply with the same callId. A handler with no payload produces no reply. Otherwise the handler's status and payload are sent. |
| PbRpc.ReplySent | freerds/core/rpc.c:306-348 | At most one reply is written, only for a request and only when the write succeeds, and it is a response to the request's callId. |
| PbRpc.TableAfterMessageIn | freerds/core/rpc.c:226-246 | A served message can only remove entries and never changes one; a response's callId is absent afterwards, and anything else leaves the table as it was. |
| PbRpc.CompletionsAfterMessageIn | freerds/core/rpc.c:226-246 | Earlier callback invocations are kept, and exactly one is added per entry the message removed from the table. |
| PbRpc.Engine.ProcessMessageIn | freerds/core/rpc.c:352-373 | The status is negative if and only if the read failed or a request's reply could not be written. A response with a known callId removes exactly that entry and completes its callback once with the message's status; an unknown callId returns 1 and changes nothing. Requests leave the table alone, and exactly the reply frame of ProcessRequest is written. A failed receive returns -1 and changes nothing. |
| PbRpc.Engine.Reconnect | freerds/core/rpc.c:407-424 | Afterwards the engine is disconnected (or reconnected, as reopening goes), with an empty queue and table. Every transaction outstanding before is completed exactly once with a transport error. |
| PbRpc.Delivered | freerds/core/rpc.c:463-478 | The messages written by a drain are at most the queue, and the whole queue when every write succeeds. |
| PbRpc.Engine.DrainWriteQueue | freerds/core/rpc.c:463-478 | Corrected: the queue is emptied, every message is written in order, and failure is reported if and only if some write failed. |
| PbRpc.Engine.DrainWriteQueueAsWritten | freerds/core/rpc.c:463-478 | The drain as written: its status is that of the last write only. |
| PbRpc.DrainAsWrittenMissesEarlierFailure | freerds/core/rpc.c:463-478 | A failed write followed by a successful one leaves the drain status at success. |
| PbRpc.Engine.ServePipe | freerds/core/rpc.c:454-464 | The pipe half of a pass: it fails if and only if the message-in status is negative, and then reconnects, completing every entry left by the message once with a transport error. Otherwise the table and callbacks are those after the message and the queue is untouched. |
| PbRpc.Engine.ServeQueue | freerds/core/rpc.c:466-482 | The queue half of a pass: the queue is emptied and its deliveries written; as written it fails if and only if the last write failed, and then reconnects, completing every outstanding entry once with a transport error. Otherwise the table and callbacks are untouched. |
| PbRpc.Engine.MainLoopIteration | freerds/core/rpc.c:426-482 | A failed wait or a stop signal exits with nothing changed. Otherwise the engine reconnects if and only if serving the pipe failed, or the queue was drained and its last write failed (as written, an earlier failed write is ignored). A reconnect empties the table and queue, completes every entry left after the pipe exactly once with a transport error, and leaves the engine connected as reopening goes. Without one the loop goes on, the table and callbacks are those after the served message, and the queue is empty if it was signalled and untouched otherwise. What is written is the pipe's reply, then the delivered queue unless serving the pipe failed. The loop exits if and only if the engine ended disconnected, and the tag counter is untouched. |
| Rds.NeverTwoLiveAppend | freerds/core/process.c:360-361 | Appending a connector event moves the live count by one, and the log keeps at most one live connector if and only if the count stays at most 1. |
| Rds.Connection.FreeConnector | freerds/core/process.c:360 | Freeing leaves no connector and logs the release of the one that existed. |
| Rds.Connection.NewConnector | freerds/core/process.c:361-362 | A new connector with the requested endpoint is created only when none exists, and its creation is logged. |
| Rds.Server.AddConnection | freerds/core/process.c:486 | The server's registry maps the connection's id to it. |
| Rds.Server.RemoveConnection | freerds/core/process.c:611 | The id is removed from the registry and nothing else changes. |
| Rds.Channel.constructor | freerds/core/channels.c:455-484 | A new channel has the given GUID, name and listener port, and is unconnected. |
| Channels.EphemeralPortRange | freerds/core/channels.c:99-112 | The range is 32768–61000 on Linux and 49152–65535 elsewhere. |
| Channels.BindLocalEphemeralPort | freerds/core/channels.c:114-162 | Ports are tried in increasing order and the first that binds is returned. When none binds, the result is -1 with socket 0. A failed socket creation returns -1. |
| Channels.ChannelServer.constructor | freerds/core/channels.c:274-300 | A new channel server has an empty GUID table. |
| Channels.ChannelServer.Add | freerds/core/channels.c:262-266 | After adding, the channel's GUID maps to it. |
| Channels.ChannelServer.Remove | freerds/core/channels.c:268-272 | After removing, the channel's GUID is absent. |
| Channels.ChannelServer.Accept | freerds/core/channels.c:209-260 | Accepted if and only if a socket arrived, exactly 36 bytes were read, and the GUID names an unconnected channel. Then only that channel gets the socket, becomes connected and is signalled. Otherwise the result is -1, no channel changes, and the socket is closed. |
| Channels.AddChannel | freerds/core/channels.c:320-324 | The channel is appended to the connection's list. |
| Channels.RemoveChannel | freerds/core/channels.c:326-330 | The first occurrence of the channel is removed from the connection's list. |
| Channels.BytesSent | freerds/core/channels.c:346-354 | The send loop stops at the full length or at the first send below 1. |
| Channels.VirtualChannelRead | freerds/core/channels.c:332-360 | A null or unknown handle gives -1 and sends nothing. Otherwise the bytes sent are the prefix of the buffer, and the result is the length only if everything was sent. |
| Channels.DecodeEncodeLE32 | freerds/core/channels.c:372 | Decoding the little-endian 4-byte length prefix inverts encoding it. |
| Channels.EncodeDecodeLE32 | freerds/core/channels.c:372 | Encoding inverts decoding, so every 4-byte prefix is a length. |
| Channels.Forwarded | freerds/core/channels.c:372-397 | As written, whatever passes the length test is the whole allocated buffer, of the announced length, written after a complete prefix and a successful allocation. |
| Channels.CheckSocketStatus | freerds/core/channels.c:372-401 | The check returns -1 unless a buffer was written. |
| Channels.FailedReadForwardedAsWritten | freerds/core/channels.c:388-401 | As written, a body read that fails with -1 behind a prefix of 0xFFFFFFFF passes the length test: the whole 4 GiB buffer is written to the virtual channel and -1 is returned. |
| Channels.BodyCompleteRejectsFailure | freerds/core/channels.c:388-395 | Corrected: a failed read is never forwarded and gives -1. The corrected test forwards if and only if the as-written one does with a nonnegative status, and then both forward exactly the received bytes and return their count. |
| Channels.ForwardFramedMessage | freerds/core/channels.c:362-402 | A complete frame forwards exactly its body and returns its length. |
| Channels.ForwardedIsFramed | freerds/core/channels.c:362-402 | Anything forwarded is exactly the body announced by its prefix. |
| Channels.CheckSocket | freerds/core/channels.c:362-402 | As written: a short prefix, a failed allocation or a body that fails the length test returns -1 and writes nothing. Otherwise the buffer is written to the channel's RDP channel and the read's status is returned, which is -1 for a failed read behind a prefix of 0xFFFFFFFF. |
| Channels.FirstFailure | freerds/core/channels.c:433-444 | The index returned is the first channel that is signalled and whose check returns below 1 (a zero-length message included). No earlier channel fails. |
| Channels.CheckChannelEventHandles | freerds/core/channels.c:423-453 | Always returns 1. Signalled channels are checked in list order with the as-written CheckSocket, up to the first whose status is below 1. The writes are exactly those of the channels checked, each to that channel's RDP channel (the list of RDP channel numbers is taken in order). Only the failing channel is removed from the list. |
| Process.Activate | freerds/core/process.c:126-189 | The codec mode is set when RemoteFX, frame acknowledgement and surface frame markers are all enabled (lines 147-148). An existing connector means a reactivation that returns TRUE and changes nothing. A nonzero LogonUser result returns FALSE with no connector. Otherwise LogonUser is called once and the new connector's connect result is returned. |
| Process.PostConnectNeverResizes | freerds/core/process.c:73-98 | Settings compared with values just copied from them never request a resize. |
| Process.PostConnect | freerds/core/process.c:52-106 | The resize branch compares copies of the settings with the settings, so it is never taken: post-connect always succeeds, after the channels' post-connect and the encoder creation. |
| Process.FrameAcknowledge | freerds/core/process.c:327-339 | The frame with the given id is removed if present; otherwise the frame list is unchanged. |
| Process.SwitchStatus | freerds/core/process.c:366 | The switch status is 0 if and only if the connect succeeded. |
| Process.SwitchFailureReportedAsSuccess | freerds/core/rpc.c:745-766 | As written, a failed connect's status 1 is sent as 0. |
| Process.SwitchResponseReportsOutcome | freerds/core/process.c:364-370 | Corrected: the response carrying the computed status (rpc.c:745-766 without the overwrite) reports 0 if and only if the connect succeeded. |
| Process.SwitchSession | freerds/core/process.c:350-382 | The old connector is freed before the new one is made, so at most one is ever live. The new connector has the requested endpoint. As written, the response always carries status 0, whatever the connect result. TRUE is returned if and only if sending succeeded. |
| Process.Logoff | freerds/core/process.c:384-408 | The connector is freed and cleared, the client is closed, a status-0 reply echoing callId is sent, and the loop is told to stop. |
| Process.ChannelEndpointOpenAsWritten | freerds/core/process.c:410-434 | As written, the new channel is never put in the GUID table, so no accept can match it. |
| Process.ChannelEndpointOpen | freerds/core/process.c:410-434 | Corrected: the channel is registered under its GUID and added to the connection, and accept finds it. Status 0, port and GUID are replied, and the loop continues. |
| Process.ProcessNotification | freerds/core/process.c:436-460 | The result is: for a switch, whether its reply was sent; FALSE after logoff; TRUE after a channel open; FALSE for any other id. A switch installs the new connector and replies with status 0. Logoff leaves no connector, closes the client and replies with status 0. A channel open (as written) replies with the listener's port and the GUID, but the GUID table and the channel list stay unchanged, so accept never finds the new channel. An unknown id changes nothing. |
| Process.TerminationFirst | freerds/core/process.c:543-553 | A global or local termination signal ends the iteration before any other source is serviced. |
| Process.FailureBeforeNotification | freerds/core/process.c:555-571 | A failed client or VCM check ends the iteration before any notification is processed. |
| Process.LoopStep | freerds/core/process.c:543-593 | One iteration: an early exit, checked in the loop's order, changes nothing. Otherwise the loop stops if and only if the pending notification does not let it go on (a failed switch reply, a logoff or an unknown id). The GUID table and the channel list stay unchanged. |
| Process.Teardown | freerds/core/process.c:598-611 | DisconnectUserSession is sent if and only if a connector exists. Afterwards there is no connector, the client is disconnected, and the connection is removed from the server. |
| Process.MainThread | freerds/core/process.c:462-617 | The connection is registered while the loop runs. On exit it is torn down and removed. The GUID table is never changed. |
| Encoder.FpsWithinBounds | freerds/core/encoder.c:36-51 | With maxFps at least 1, the adapted fps is always between 1 and maxFps. |
| Encoder.ThrottleAtMost | freerds/core/encoder.c:40 | The throttled rate never exceeds maxFps, falls as frames in flight grow, and is at most maxFps/2 once a frame is in flight. |
| Encoder.ThrottleMonotone | freerds/core/encoder.c:38-41 | With both in-flight counts beyond frameAck, more frames in flight never raise the fps. |
| Encoder.FpsRecovers | freerds/core/encoder.c:42-47 | With no frames beyond the acknowledged window, fps rises by exactly 2 below the cap. |
| Encoder.CeilDivCovers | freerds/core/encoder.c:70-71 | The grid dimension covers the extent and is the least number of tiles that does. |
| Encoder.FillGrid | freerds/core/encoder.c:84-93 | Tile k of the grid starts at offset k * tileSize. |
| Encoder.Prepared | freerds/core/encoder.c:353-390 | The walk of prepare over a codec order adds only codecs that are requested and not yet present. |
| Encoder.PreparedAppend | freerds/core/encoder.c:353-390 | Walking two orders one after the other is walking the first, then (only if it completed) the second. The added sets are joined. |
| Encoder.PreparedCompletes | freerds/core/encoder.c:353-390 | The walk completes if and only if every codec in the order that is requested and not present can be constructed. When it completes, it has added exactly those codecs. |
| Encoder.PreparedIgnoresOthers | freerds/core/encoder.c:353-390 | Codecs outside the order make no difference to the walk. |
| Encoder.PrepareComposes | freerds/core/encoder.c:353-390 | Prepare is the RemoteFX/NSCodec walk followed by the planar/interleaved walk, started from the codecs the first added. The whole succeeds if and only if both halves do. |
| Encoder.PrepareSucceedsIff | freerds/core/encoder.c:353-390 | Over the order RemoteFX, NSCodec, planar, interleaved, the walk succeeds if and only if every requested codec not yet present can be constructed. It then adds exactly those codecs. |
| Encoder.Encoder.constructor | freerds/core/encoder.c:398-407 | The encoder as `freerds_encoder_new` allocates it, before `init`: fps 16, maxFps 32, no codecs, no frame list and a released grid. |
| Encoder.Encoder.CreateFrameId | freerds/core/encoder.c:30-62 | fps is adapted from the frames in flight. On allocation, frameId steps by one and a frame under the new id joins the list; otherwise -1 with ids unchanged. |
| Encoder.Encoder.InitGrid | freerds/core/encoder.c:64-96 | Grid dimensions are the ceiling quotients. A failed allocation gives -1. On success, grid entry i*gridWidth+j points at offset (i*gridWidth+j)*tileSize. |
| Encoder.Encoder.UninitGrid | freerds/core/encoder.c:98-116 | The grid is released with zero dimensions, and a second call changes nothing. |
| Encoder.Encoder.InitFrameBookkeeping | freerds/core/encoder.c:134-141 | fps 16, maxFps 32, frameId 0 and a new list are set only when no frame list exists. |
| Encoder.Encoder.InitRfx | freerds/core/encoder.c:118-146 | RemoteFX is added if and only if it existed or could be created. On failure the result is -1 and nothing changes. On success without a frame list, fps 16, maxFps 32, frameId 0, an empty list and frameAck = SurfaceFrameMarkerEnabled are set (lines 134-141); with a list, all five are kept. |
| Encoder.Encoder.InitNsc | freerds/core/encoder.c:148-176 | NSCodec is added if and only if it existed or could be created. On failure the result is -1 and nothing changes. On success without a frame list, fps 16, maxFps 32, frameId 0, an empty list and frameAck = SurfaceFrameMarkerEnabled are set (lines 160-167); with a list, all five are kept. |
| Encoder.Encoder.InitPlanar | freerds/core/encoder.c:178-200 | Planar is added if and only if it existed or could be created. On failure the result is -1 and nothing changes. |
| Encoder.Encoder.InitInterleaved | freerds/core/encoder.c:202-213 | Interleaved is added if and only if it existed or could be created. On failure the result is -1 and nothing changes. |
| Encoder.Encoder.Init | freerds/core/encoder.c:215-229 | 64×64 tiles; the grid dimensions are the ceiling quotients; the grid buffer and the grid have InitGrid's outcome (no buffer, a null grid, or a fresh grid whose entry k is k times the tile size); the result is 1 if and only if a bit-stream exists. |
| Encoder.Encoder.Uninit | freerds/core/encoder.c:297-328 | All four codecs are cleared, the grid and the bit-stream are released, and the frame list goes with RemoteFX or NSCodec (and is kept otherwise). The frame id is reset only with RemoteFX. Size, tile size, fps, maxFps and frameAck are kept. |
| Encoder.Encoder.PrepareFrameCodecs | freerds/core/encoder.c:353-371 | The result is 1 if and only if the RemoteFX/NSCodec walk completes. The codecs added are exactly that walk's, which is those before the first failure. RemoteFX and NSCodec, when requested, are both present on success. A successful first one without a frame list sets up fresh frame bookkeeping; with a list, or with neither requested, the bookkeeping is kept. |
| Encoder.Encoder.PrepareBitmapCodecs | freerds/core/encoder.c:373-389 | The result is 1 if and only if the planar/interleaved walk completes. The codecs added are exactly that walk's. |
| Encoder.Encoder.Prepare | freerds/core/encoder.c:353-390 | The result is 1 if and only if every requested codec not yet set can be constructed. The codecs added are exactly the walk's: on failure, those before the first failing one in the order RemoteFX, NSCodec, planar, interleaved; on success, every requested codec. Only requested codecs are added. The frame bookkeeping is kept when a frame list existed or neither RemoteFX nor NSCodec was requested, and on success is fresh otherwise. |
| Encoder.Encoder.Reinit | freerds/core/encoder.c:334-343 | After uninit and init no codec bit is set, the bit-stream exists if and only if its allocation succeeds, and the result is 1 exactly then. The grid is rebuilt for 64×64 tiles. The frame list is dropped when RemoteFX or NSCodec was set; with neither, the bookkeeping is kept. |
| Encoder.Encoder.Reset | freerds/core/encoder.c:330-351 | The result is 1 if and only if the bit-stream allocation succeeds and every codec set before can be constructed again. The codecs afterwards are those the prepare walk adds from none (nothing when the bit-stream fails). On success the codec set equals the one before and a bit-stream exists. The tiles are 64×64 and the grid is rebuilt for them. With RemoteFX or NSCodec set before, a successful reset starts fresh frame bookkeeping; with neither, the bookkeeping is kept. |
| KeysymTable.TableSorted | module/X11/service/rdpInputUnicode.c:24-796 | The table has 773 entries ordered non-decreasingly by ucs, as bsearch needs. |
| InputUnicode.CompareUcs | module/X11/service/rdpInputUnicode.c:806-822 | A three-way comparison: -1, 0 or 1 exactly when the key is below, equal to or above the entry's ucs. |
| InputUnicode.Search | module/X11/service/rdpInputUnicode.c:832-833 | A hit is an entry whose ucs equals the key. Over a sorted table, a miss means no entry has it. |
| InputUnicode.DirectUcsRoundTrip | module/X11/service/rdpInputUnicode.c:840-841 | For a 24-bit code point, `ucs \| 0x01000000` is 0x01000000 plus the code point, which X decodes back. |
| InputUnicode.UnicodeToKeysymCases | module/X11/service/rdpInputUnicode.c:824-842 | Latin-1 maps to itself. A non-Latin-1 code point in the table gets the keysym of an entry with that ucs. One absent from the table gets the directly encoded keysym. |
| InputUnicode.TableHasDuplicateUcs | module/X11/service/rdpInputUnicode.c:571-572 | U+2227 appears twice, with keysyms 0x8de and 0xba9. |
| InputUnicode.KeySequenceBalanced | module/X11/service/rdpInputUnicode.c:886-903 | Keycode 0 emits nothing. Otherwise: shift pressed, key pressed and released, shift released. Every key ends released and none is released before it is pressed. |
| InputUnicode.KeySink.Enqueue | module/X11/service/rdpInputUnicode.c:881-905 | One enqueueKey call appends one key event. |
| InputUnicode.AddUnicodeEventAsync | module/X11/service/rdpInputUnicode.c:881-905 | Exactly the character's key sequence is appended to the callback's queue. |
| InputUnicode.UnicodeInputQueue.Post | module/X11/service/rdpInputUnicode.c:949-959 | Exactly one record with the character, flags and callback is enqueued, unless allocation fails. |
| SessionManager.ApplicationContext.constructor | manager/session/SessionStore.h:42-51 | The stores start empty and valid. |
| SessionManager.ApplicationContext.StopAndRemoveSession | manager/call/CallInLogOffUserSession.cpp:114-116 | The session's module is stopped and the session is removed; nothing else changes. |
| ManagerCalls.CallInDisconnectUserSession.constructor | manager/call/CallInDisconnectUserSession.cpp:33-38 | Starts with connection id 0 and not disconnected. |
| ManagerCalls.CallInDisconnectUserSession.DecodeRequest | manager/call/CallInDisconnectUserSession.cpp:50-68 | The connection id is taken from the request. |
| ManagerCalls.CallInDisconnectUserSession.EncodeResponse | manager/call/CallInDisconnectUserSession.cpp:70-86 | The response echoes the connection id. |
| ManagerCalls.CallInDisconnectUserSession.DoStuff | manager/call/CallInDisconnectUserSession.cpp:88-137 | An unknown connection, or one whose session is missing, returns -1 and changes nothing. On success the session becomes disconnected and stays, and the connection is removed. An end-session task is queued if and only if the timeout is 0 or unset. The stores stay valid. |
| ManagerCalls.CallInLogOffUserSession.constructor | manager/call/CallInLogOffUserSession.cpp:32-37 | Starts with connection id 0 and not logged off. |
| ManagerCalls.CallInLogOffUserSession.DecodeRequest | manager/call/CallInLogOffUserSession.cpp:49-67 | The connection id is taken from the request. |
| ManagerCalls.CallInLogOffUserSession.EncodeResponse | manager/call/CallInLogOffUserSession.cpp:69-85 | The response echoes the connection id. |
| ManagerCalls.CallInLogOffUserSession.DoStuff | manager/call/CallInLogOffUserSession.cpp:87-121 | An unknown connection, or one whose session is missing, returns -1 and changes nothing. On success the module is stopped, and the session and connection are removed. The stores stay valid. |
| ManagerCalls.CallInEndSession.constructor | manager/call/CallInEndSession.cpp:33-38 | Starts with session id 0 and no success. |
| ManagerCalls.CallInEndSession.DecodeRequest | manager/call/CallInEndSession.cpp:50-68 | The session id is taken from the request. |
| ManagerCalls.CallInEndSession.EncodeResponse | manager/call/CallInEndSession.cpp:70-88 | The response has status 0 and echoes the session id. |
| ManagerCalls.CallInEndSession.DoStuff | manager/call/CallInEndSession.cpp:90-102 | Always returns 0 with success. It queues exactly one end-session task for the session and touches no store. |
| ManagerCalls.TaskEndSession.constructor | manager/call/TaskEndSession.cpp:72-74 | The task carries the session id. |
| ManagerCalls.TaskEndSession.StopSession | manager/call/TaskEndSession.cpp:76-89 | The session is stopped and removed only if it exists; otherwise nothing changes. |
| ManagerCalls.TaskEndSession.Run | manager/call/TaskEndSession.cpp:35-70 | With no connection, the session is stopped and nothing is called. Otherwise one logoff call is made. Only a 0 result reporting logged-off removes the session and then the connection; anything else changes no store. |
| ManagerCalls.TaskSwitchTo.constructor | session-manager/common/call/TaskSwitchTo.cpp:83-97 | The task carries its connection, endpoint and both session ids. |
| ManagerCalls.TaskSwitchTo.CleanUpOnError | session-manager/common/call/TaskSwitchTo.cpp:99-108 | The new session is stopped and removed if it exists; otherwise nothing changes. |
| ManagerCalls.TaskSwitchTo.Run | session-manager/common/call/TaskSwitchTo.cpp:38-81 | One switch call is made. On failure only cleanup runs, and the connection store is untouched. On success, an existing nonzero old session is stopped and removed, and the connection (created if absent) maps to the new session. |

## Left out

- The named-pipe transport, thread creation, the blocking waits and event handles are not modelled. Readiness and transport success are parameters.
- The 10-second wait of the sync call and its race with the I/O thread are not modelled. `CallMethod` covers the three sequential outcomes: answered, transport failure, no answer.
- Protocol-buffer packing and unpacking of messages are not modelled; payloads are byte sequences.
- The FDSAPI message ids, status codes and PBRPC result codes are defined in headers that are not part of this model. The model uses its own distinct values, and the response marker 0x80000000.
- In `pbrpc_process_request` the callback pointer is never initialised and the switch has no default. The model treats a type without a dispatched handler as having no handler, which is what the NOT_FOUND branch intends.
- The transaction table is a map. The source's ListDictionary could hold two entries under one tag after 2^32 calls; the map keeps one.
- `HashTable_Add` with a GUID already in the table is modelled as a replacement.
- The certificate generation and the input-forwarding callbacks of `process.c` are not modelled. They only forward to the back-end.
- The RPC round trip in `freerds_channels_post_connect` and `freerds_channels_is_channel_allowed` is not modelled. Post-connect is recorded as having run.
- `freerds_channel_server_open`, `close`, `listen_event`, `new` and `free`, and `freerds_client_get_channel_event_handles` are socket and handle plumbing and are not modelled.
- Process.MainThread: the unbounded `while (1)` loop is modelled by a finite sequence of iterations; a run that never exits is its prefixes.
- Channels.VirtualChannelRead: the `int` offset is unbounded in the model. Buffers are required to be shorter than 2^32, and overflow of the `int` offset is not modelled.
- Encoder.Encoder.InitGrid: `tileSize * tileCount` and the pointer offsets are unbounded integers, so their overflow is not modelled.
- Encoder.Encoder.constructor: width and height are natural numbers; negative sizes passed to `freerds_encoder_new` are not modelled.
- The codec contexts (RemoteFX, NSCodec, planar, interleaved) are opaque. Whether each constructor succeeds is a parameter, and the four codec flag bits are a set of four codecs. Codec bits outside those four are not modelled.
- The `uninit_*` codec functions are modelled inside `Uninit`, which is where they are called.
- InputUnicode.Search follows glibc's `bsearch` halving. Which of two equal entries is found is therefore that implementation's choice; the contract only promises an entry with the key.
- `unicode_to_keycode`, which asks the X display for a keycode and for the shift modifier, is foreign. Its two results are parameters of `AddUnicodeEventAsync`.
- The `unicode_run` worker thread and its start and stop functions are not modelled.
- The session and connection stores are maps. `getConnectionIdForSessionId` is a parameter constrained by `IsConnectionFor`.
- The payloads of the session manager's outgoing calls are not modelled. `CallOutSwitchTo` and the logoff call are represented by their answers.
- ManagerCalls.TaskSwitchTo.Run: the case where the old session id equals the new one is excluded for the validity guarantee only (`SwitchKeepsStoresValid`). The transition itself is modelled for all inputs.
- PbRpc.Engine.Reconnect: the order in which outstanding transactions are completed is left open; the source takes them from the head of its list (insertion order).
- Channels.CheckSocket: the body read's status is an `int`, so `ReadFits` bounds it below 2^31; a `recv` result too large for an `int`, and so a body of 2^31 bytes or more, is not modelled (`ForwardFramedMessage` is stated for bodies below 2^31).
- The Thrift-generated message types and the header-only interfaces are not modelled.

## Findings

| source | as written | input that shows it | evidently intended | confidence | as-written member | corrected member |
|---|---|---|---|---|---|---|
| freerds/core/rpc.c:745-766 | `freerds_icp_SwitchServiceEndpointResponse` overwrites the response status with 0 before packing it | an endpoint switch whose connect fails: `process_switch_session` sets status 1, and 0 is sent | the status computed from the connect result reaches the session manager | not executed; high | Process.SwitchFailureReportedAsSuccess | Process.SwitchResponseReportsOutcome |
| freerds/core/process.c:410-434 | the channel created for a channel-open request is never added to the channel server's GUID table or to the connection's channel list | any channel-open request: the GUID returned to the session manager is then rejected by `freerds_channel_server_accept` | the channel is registered with `freerds_channel_server_add` and `freerds_client_add_channel` | not executed; medium (no caller of the add functions is part of this model) | Process.ChannelEndpointOpenAsWritten | Process.ChannelEndpointOpen |
| freerds/core/rpc.c:463-478 | the drain loop overwrites the status on every write, so only the last write decides whether to reconnect | a queue of two messages whose first write fails and second succeeds: status 0, no reconnect | any failed write triggers the reconnect | not executed; medium | PbRpc.DrainAsWrittenMissesEarlierFailure | PbRpc.Engine.DrainWriteQueue |
| freerds/core/channels.c:390 | `status != length` compares an `int` with a `UINT32`, so -1 is converted to 0xFFFFFFFF | a length prefix of 0xFFFFFFFF whose body `recv` fails with -1: the length test passes, the whole uninitialised buffer is written to the virtual channel, and -1 is returned | a failed body read is rejected | not executed; low (the 4 GiB allocation before it must also succeed) | Channels.FailedReadForwardedAsWritten | Channels.BodyCompleteRejectsFailure |
