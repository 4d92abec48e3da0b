# Channel multiplexer, sync controller, proxy metrics and permission flags

This project is a Dafny model of four pieces of a browser code base, with proofs about each.

- **The channel multiplexer of the remoting protocol** (`remoting/protocol/channel_multiplexer.cc`). It carries many named byte streams over one base stream socket.
  - A `ChannelMultiplexer` keeps its channels by name and, once a peer has used an id, also by receive id. It hands out send ids from a counter and queues `CreateChannel` requests until the base channel is ready.
  - Each `MuxChannel` stamps its outgoing packets and buffers inbound `PendingPacket`s.
  - Each `MuxSocket` allows one outstanding read and one outstanding write.
  - Closures (done tasks, completion callbacks, channel-created callbacks) are tokens. Running one appends an event to a shared `CallbackLog`, so "runs exactly once, in this order" can be stated.
  - Tasks the multiplexer posts to its own thread form an explicit queue, which `RunPostedTask` drains.
  - The packet writer is an object that accepts or refuses a packet.
  - Files: `mux_packets.dfy`, `mux_channel.dfy`, `multiplexer.dfy`.
- **The start/stop state machine of `UIDataTypeController`** (`chrome/browser/sync/glue/ui_data_type_controller.cc`). The collaborators it consults are reduced to boolean outcomes passed in by the caller. Each callback is recorded together with what it would observe of the controller. File: `sync_controller.dfy`.
- **The response checks of the data reduction proxy integration tests** (`tools/chrome_proxy/integration_tests/chrome_proxy_metrics.py`). This covers the Via-header and Chrome-Proxy-header predicates and the counting checks over the responses of a page load.
  - The Python 2 string operations they rely on (`split`, `join`, `strip`, `startswith`, slicing) are modelled in `py_strings.dfy`, with their own lemmas.
  - File: `chrome_proxy_metrics.dfy`.
- **The permission identifiers and flag predicates of `extensions/common/permissions/api_permission.h`**. The flag word is a 32-bit vector. File: `api_permission.dfy`.

`wrappers.dfy` holds the shared `Option` and `Result` types.

The source's behaviour is modelled as written, including these points of the multiplexer (line numbers refer to `remoting/protocol/channel_multiplexer.cc`):

- **An inbound packet with an empty payload is neither queued nor has its done task run** (lines 214-220).
- **`DoRead` subtracts the cumulative position, not the round's count, from the remaining buffer length** (lines 252-253). It never over-reads, but it can return fewer bytes than the buffer would hold. `ReadLoopCanStopEarly` exhibits this.
- **The base channel can be requested more than once.** `CreateChannel` calls the factory whenever the request queue goes from empty to one entry (lines 377-385). If every queued request is cancelled before the base channel is ready, the next `CreateChannel` requests it again.
- **A stale receive-id entry can remain.** `MuxChannel::OnIncomingPacket` only DCHECKs that the packet's id is the channel's receive id (line 213), so the model does not require it. The multiplexer files a channel under each new id it is first seen with (lines 489-491). So when a peer introduces the same channel name again under a new id, the channel is rebound to the new id and the old entry of `channels_by_receive_id_` still points at it.
- **A write failure completes only a pending write.** `MuxChannel::OnWriteFailed` passes the failure to the socket (lines 223-226), and `MuxSocket::OnWriteFailed` runs only a stored write callback, with ERR_FAILED (lines 327-333). A pending read keeps waiting.
- **`id_sent_` is set by the first write even if the writer refuses it** (lines 236-241). So a refused first write means the channel name is never sent.

Other `DCHECK`s of the source are preconditions. Examples:

- `DCHECK(!socket_)` in `CreateSocket`, propagated to `CreateChannel` and `RunPostedTask`.
- `DCHECK(read_callback_.is_null())` in `MuxSocket::Read`.
- `DCHECK_EQ(state_, MODEL_STARTING)` in `OnModelLoaded`.

Packets arrive only after the base channel is up, because the reader starts on it. So the multiplexer's `OnIncomingPacket` requires the base channel.

## Model

| member | source | states |
|---|---|---|
| MuxPackets.PendingPacket.IsEmpty | remoting/protocol/channel_multiplexer.cc:38 | a pending packet is empty exactly when no byte of its payload is left unread |
| MuxPackets.PendingPacket.Read | remoting/protocol/channel_multiplexer.cc:40-45 | a read copies min(size, remaining) bytes and advances the cursor by exactly that many. It keeps the payload and the done task, and leaves the packet empty exactly when size covered the rest |
| MuxPackets.ReadSplitsUnread | remoting/protocol/channel_multiplexer.cc:40-45 | the bytes a read hands out, followed by what is still unread afterwards, are exactly what was unread before |
| MuxPackets.QueueUnreadAppend | remoting/protocol/channel_multiplexer.cc:214-215 | queuing a non-empty packet keeps the queue free of empty packets and appends its payload to the buffered bytes |
| MuxPackets.ReadLoopKeepsQueueValid | remoting/protocol/channel_multiplexer.cc:244-260 | the queue DoRead leaves behind still holds only non-empty packets with valid cursors, as the DCHECK inside the loop expects |
| MuxPackets.ReadLoopConserves | remoting/protocol/channel_multiplexer.cc:244-260 | the bytes DoRead copies, followed by the bytes still queued after it, are exactly the bytes queued before it. Nothing is lost, duplicated or reordered |
| MuxPackets.ReadLoopNeverOverReads | remoting/protocol/channel_multiplexer.cc:244-260 | DoRead never copies more than buffer_len bytes, and copies none when buffer_len is not positive |
| MuxPackets.ReadLoopYieldsNothingIff | remoting/protocol/channel_multiplexer.cc:246-259 | DoRead returns 0 exactly when buffer_len is not positive or no packet is queued |
| MuxPackets.ReadLoopConsumesFront | remoting/protocol/channel_multiplexer.cc:254-257 | DoRead deletes only a prefix of the queue and runs those packets' done tasks in queue order. At most the next packet stays at the front, with its cursor advanced; the rest is untouched |
| MuxPackets.ReadLoopCanStopEarly | remoting/protocol/channel_multiplexer.cc:252-253 | because the cumulative position is subtracted, a 4-byte read over queued packets of 1, 1 and 5 bytes copies only 3 bytes. The third packet stays at the front with its cursor at 1 |
| MuxChannels.PacketWriter.Init | remoting/protocol/channel_multiplexer.cc:407-409 | once initialised on the base channel the writer accepts packets; whether it has failed and the packets it has taken are unchanged |
| MuxChannels.PacketWriter.Fail | remoting/protocol/channel_multiplexer.cc:407-409 | after the write error it reports through the callback bound here, the writer refuses packets; its initialisation and the packets it has taken are unchanged |
| MuxChannels.PacketWriter.Write | remoting/protocol/channel_multiplexer.cc:497-500 | the writer takes a packet exactly when it has been initialised on the base channel and has not failed, and records only the packets it takes |
| MuxChannels.MuxChannel.constructor | remoting/protocol/channel_multiplexer.cc:185-195 | a new channel has its name and send id, has sent nothing, has an unknown receive id, no socket and no buffered packets |
| MuxChannels.MuxChannel.SetReceiveId | remoting/protocol/channel_multiplexer.cc:76 | the channel takes the receive id, and its packets, socket, send state and socket state are unchanged |
| MuxChannels.MuxChannel.CreateSocket | remoting/protocol/channel_multiplexer.cc:203-208 | a channel without a socket gets a fresh idle socket that points back at it. Nothing else changes |
| MuxChannels.MuxChannel.OnIncomingPacket | remoting/protocol/channel_multiplexer.cc:210-221 | an empty payload changes nothing and its done task is not run. A non-empty one is queued. A read that was waiting is completed from it at once, with at least one byte, and the read callback is run once |
| MuxChannels.MuxChannel.OnWriteFailed | remoting/protocol/channel_multiplexer.cc:223-226 | the failure is passed to the socket if there is one, which completes only its pending write. Everything else of the channel and its socket stays as it was: packets, ids, the pending read, write_pending and the write result |
| MuxChannels.MuxChannel.OnSocketDestroyed | remoting/protocol/channel_multiplexer.cc:228-231 | the channel forgets its socket and keeps its buffered packets and ids |
| MuxChannels.MuxChannel.DoWrite | remoting/protocol/channel_multiplexer.cc:233-242 | every packet is stamped with the send id. Only the first packet the channel ever writes carries its name, and the channel keeps the invariant that its sent packets are named only at the first. The packet is taken exactly when the writer accepts it |
| MuxChannels.MuxChannel.ReadFront | remoting/protocol/channel_multiplexer.cc:248-257 | one round of the loop reads from the front packet and deletes it, running its done task, once it is empty. The queue stays free of empty packets, the round is a step of the read-loop specification, and either a packet was deleted or the buffer is used up |
| MuxChannels.MuxChannel.DoRead | remoting/protocol/channel_multiplexer.cc:244-260 | the bytes returned, the queue left behind and the done tasks run are those of the read-loop specification, whose properties are the ReadLoop lemmas above |
| MuxChannels.MuxSocket.constructor | remoting/protocol/channel_multiplexer.cc:262-267 | a new socket is idle: no read, no write, no callback |
| MuxChannels.MuxSocket.Read | remoting/protocol/channel_multiplexer.cc:273-287 | returns the number of bytes copied. It returns ERR_IO_PENDING, keeping the buffer size and callback, exactly when nothing was buffered. The write state is untouched |
| MuxChannels.MuxSocket.Write | remoting/protocol/channel_multiplexer.cc:289-316 | sends min(1024, buffer_len) bytes as one packet and marks the write pending. It returns ERR_FAILED when the writer refuses, the size when the write completed inline, and otherwise ERR_IO_PENDING, keeping the callback and size |
| MuxChannels.MuxSocket.OnWriteComplete | remoting/protocol/channel_multiplexer.cc:318-325 | clears the pending write. A stored callback is cleared and then run once with the stored size |
| MuxChannels.MuxSocket.OnWriteFailed | remoting/protocol/channel_multiplexer.cc:327-333 | a stored write callback is cleared and run once with ERR_FAILED. The pending read and the write_pending flag are left as they were |
| MuxChannels.MuxSocket.OnPacketReceived | remoting/protocol/channel_multiplexer.cc:335-344 | with no read waiting, nothing changes. Otherwise the read is retried, copies at least one byte, and its callback is cleared and run once with the count |
| MuxChannels.MuxSocket.Destroy | remoting/protocol/channel_multiplexer.cc:269-271 | destroying a socket detaches it from its channel, whose packets and ids are kept |
| Multiplexer.ChannelMultiplexer.constructor | remoting/protocol/channel_multiplexer.cc:346-355 | a new multiplexer holds its factory, has no base channel, no channels and no requests, and its next send id is 0 |
| Multiplexer.ChannelMultiplexer.GetOrCreateChannel | remoting/protocol/channel_multiplexer.cc:435-447 | a known name yields its channel and changes nothing. An unknown name yields a new channel with the next send id, and the counter goes up by one |
| Multiplexer.ChannelsApart | remoting/protocol/channel_multiplexer.cc:435-447 | two channels of a multiplexer under different names are different objects with different sockets |
| Multiplexer.SendIdsDistinct | remoting/protocol/channel_multiplexer.cc:435-447 | no two channels of a multiplexer share a send id |
| Multiplexer.ChannelMultiplexer.CreateChannel | remoting/protocol/channel_multiplexer.cc:366-387 | with a base channel, the callback gets a fresh socket at once. After the base channel failed, it gets null at once. Otherwise the request is queued, and the base channel is requested only when the queue had been empty. Every other channel, and its socket, is left as it was |
| Multiplexer.ChannelMultiplexer.OpenSocket | remoting/protocol/channel_multiplexer.cc:369-371 | the channel called by the name is found or created, gets a fresh idle socket, and the callback runs once with it. Every other channel, and its socket, is left as it was |
| Multiplexer.ChannelMultiplexer.CreateSocketOn | remoting/protocol/channel_multiplexer.cc:431-432 | the named channel gets a fresh idle socket and the callback runs once with it. No other channel changes |
| Multiplexer.ChannelMultiplexer.CancelChannelCreation | remoting/protocol/channel_multiplexer.cc:389-397 | the queue loses its first request for the name and nothing else |
| Multiplexer.FirstIndex | remoting/protocol/channel_multiplexer.cc:390-392 | the position found holds the name and no earlier request does; the queue length means there is none |
| Multiplexer.RemoveFirstDropsOne | remoting/protocol/channel_multiplexer.cc:389-397 | a name is queued exactly when a first position for it is found. Cancelling it then removes exactly the request at that position and keeps the others in order. Cancelling an unqueued name removes nothing |
| Multiplexer.ChannelMultiplexer.OnBaseChannelReady | remoting/protocol/channel_multiplexer.cc:399-413 | the factory is always forgotten. The writer starts only on a created base channel. The oldest request is served at once, with a socket or with null, and the rest are left to a posted task |
| Multiplexer.ChannelMultiplexer.DoCreatePendingChannels | remoting/protocol/channel_multiplexer.cc:415-433 | each call serves exactly the front request, after posting itself again. The request gets a socket when the base channel is up and null otherwise. An empty queue changes nothing. No channel other than the served one changes |
| Multiplexer.ChannelMultiplexer.ServeRequest | remoting/protocol/channel_multiplexer.cc:429-432 | the request's callback runs once, with a fresh socket on its channel when the base channel is up and with null otherwise. No other channel changes |
| Multiplexer.ChannelMultiplexer.RunPostedTask | remoting/protocol/channel_multiplexer.cc:423-425 | running the oldest posted task either serves one request, re-posting while requests remain, or notifies one channel of a write failure. For each kind it states the callbacks run and that every other channel is left as it was. No request is ever left without a task to serve it |
| Multiplexer.ChannelMultiplexer.RunCreatePendingChannels | remoting/protocol/channel_multiplexer.cc:423-425 | a posted DoCreatePendingChannels task serves the front request, with the callback it runs, and leaves every other channel as it was |
| Multiplexer.ChannelMultiplexer.RunNotifyWriteFailed | remoting/protocol/channel_multiplexer.cc:453-455 | a posted NotifyWriteFailed task fails only the named channel's pending write; every other channel is left as it was |
| Multiplexer.ChannelMultiplexer.OnWriteFailed | remoting/protocol/channel_multiplexer.cc:450-457 | the writer has failed and refuses further packets. One notification task is posted per channel, each channel exactly once, and nothing else changes |
| Multiplexer.NotifyTasks | remoting/protocol/channel_multiplexer.cc:451-456 | the tasks posted are one NotifyWriteFailed per channel name, in iteration order |
| Multiplexer.Enumerate | remoting/protocol/channel_multiplexer.cc:451-452 | iterating a map visits each key exactly once |
| Multiplexer.ChannelMultiplexer.NotifyWriteFailed | remoting/protocol/channel_multiplexer.cc:459-464 | a channel still known under the name fails its socket's pending write and changes nothing else; an unknown name changes nothing. Every other channel and socket is left as it was |
| Multiplexer.ChannelMultiplexer.OnIncomingPacket | remoting/protocol/channel_multiplexer.cc:466-495 | a packet without a channel id, or with an unknown id and no name, is dropped and its done task run, leaving both maps and every channel unchanged. Otherwise it goes to the channel known by its receive id or, the first time an id is seen, by its name. That channel is found or created and filed under the id. Every other channel, its packets and its socket, is left as it was |
| Multiplexer.ChannelMultiplexer.Receive | remoting/protocol/channel_multiplexer.cc:487-494 | the routed channel is filed under a new receive id, then handed the packet; no other channel changes |
| Multiplexer.ChannelMultiplexer.BindReceiveId | remoting/protocol/channel_multiplexer.cc:489-491 | the channel called by the name, found or created, takes the new receive id and is filed under it. Its packets, socket and read are unchanged, and so is every other channel |
| Multiplexer.ChannelMultiplexer.FileUnderReceiveId | remoting/protocol/channel_multiplexer.cc:490-491 | the receive-id map gains exactly the new id, pointing at the channel, which takes that id; no other channel changes |
| Multiplexer.ChannelMultiplexer.DeliverTo | remoting/protocol/channel_multiplexer.cc:494 | the channel takes the packet as its own OnIncomingPacket states; every other channel and socket is left as it was |
| SyncGlue.IsSuccessfulResult | chrome/browser/sync/glue/ui_data_type_controller.cc:249 | a start result is successful exactly when it is OK or OK_FIRST_RUN |
| SyncGlue.AssociationResult | chrome/browser/sync/glue/ui_data_type_controller.cc:123-216 | association succeeds exactly when Connect gives a service, crypto is ready, the nodes can be read and neither the data fetch nor the merge reports an error. Success is OK when the sync model has user nodes and OK_FIRST_RUN otherwise. Each failure maps to its own result: ASSOCIATION_FAILED, NEEDS_CRYPTO or UNRECOVERABLE_ERROR |
| SyncGlue.StateAfterStart | chrome/browser/sync/glue/ui_data_type_controller.cc:249-255 | a successful result leaves the state alone. A failure leads to DISABLED exactly for ASSOCIATION_FAILED, and to NOT_RUNNING for every other failure |
| SyncGlue.UIDataTypeController.constructor | chrome/browser/sync/glue/ui_data_type_controller.cc:30-46 | a new controller is NOT_RUNNING with no callbacks and no change processor |
| SyncGlue.UIDataTypeController.LoadModels | chrome/browser/sync/glue/ui_data_type_controller.cc:58-89 | when not NOT_RUNNING, the callback gets "Model already loaded" and nothing changes. Otherwise a change processor is made and the state becomes MODEL_STARTING, or MODEL_LOADED with the callback cleared and run without error when the models start at once |
| SyncGlue.UIDataTypeController.OnModelLoaded | chrome/browser/sync/glue/ui_data_type_controller.cc:91-100 | from MODEL_STARTING the state becomes MODEL_LOADED. The stored callback is cleared before it is run without error |
| SyncGlue.UIDataTypeController.StartAssociating | chrome/browser/sync/glue/ui_data_type_controller.cc:102-114 | from MODEL_LOADED the controller associates and never stays ASSOCIATING. It ends RUNNING on success; on failure it ends DISABLED or NOT_RUNNING with the change processor disconnected. The start callback runs once. A local service is held exactly when Connect returned one |
| SyncGlue.UIDataTypeController.Associate | chrome/browser/sync/glue/ui_data_type_controller.cc:123-216 | the result handed to StartDone is the one the outcomes decide, and RUNNING is entered only on success. local_service_ is overwritten by Connect's answer, so a service is held exactly when Connect returned one |
| SyncGlue.UIDataTypeController.StartDone | chrome/browser/sync/glue/ui_data_type_controller.cc:243-270 | a failure sets DISABLED or NOT_RUNNING and disconnects and drops the change processor. In every case start_callback_ is cleared before the callback runs |
| SyncGlue.UIDataTypeController.AbortModelLoad | chrome/browser/sync/glue/ui_data_type_controller.cc:223-241 | the state becomes NOT_RUNNING and the change processor is dropped without a disconnect. The load callback is cleared and run with "Aborted" |
| SyncGlue.UIDataTypeController.Stop | chrome/browser/sync/glue/ui_data_type_controller.cc:272-301 | a change processor is disconnected. A stop during MODEL_STARTING aborts the load; any other stop tells the local service to stop syncing if the last Connect returned one. The controller always ends NOT_RUNNING |
| PyStrings.FindFirst | tools/chrome_proxy/integration_tests/chrome_proxy_metrics.py:72 | the cut position is the first occurrence of the separator, or the end exactly when there is none |
| PyStrings.Split | tools/chrome_proxy/integration_tests/chrome_proxy_metrics.py:46 | a split always has at least one piece |
| PyStrings.SplitPiecesFree | tools/chrome_proxy/integration_tests/chrome_proxy_metrics.py:46 | no piece of a split holds the separator |
| PyStrings.JoinSplit | tools/chrome_proxy/integration_tests/chrome_proxy_metrics.py:46 | joining the pieces of a split gives back the string |
| PyStrings.SplitJoin | tools/chrome_proxy/integration_tests/chrome_proxy_metrics.py:46 | splitting a join of separator-free pieces gives back the pieces |
| PyStrings.SplitCount | tools/chrome_proxy/integration_tests/chrome_proxy_metrics.py:70 | a split has one piece more than the string has separators |
| PyStrings.SplitOnce | tools/chrome_proxy/integration_tests/chrome_proxy_metrics.py:72 | split(sep, 1) gives one or two pieces |
| PyStrings.SplitOnceCuts | tools/chrome_proxy/integration_tests/chrome_proxy_metrics.py:72 | split(sep, 1) gives one piece exactly when there is no separator. Otherwise it gives two pieces that, rejoined with the separator, are the string, and the first piece has no separator |
| PyStrings.LStripSuffix | tools/chrome_proxy/integration_tests/chrome_proxy_metrics.py:46 | lstrip keeps a suffix that does not start with a stripped character, and removes only stripped characters |
| PyStrings.RStripPrefix | tools/chrome_proxy/integration_tests/chrome_proxy_metrics.py:46 | rstrip keeps a prefix that does not end with a stripped character, and removes only stripped characters |
| PyStrings.Strip | tools/chrome_proxy/integration_tests/chrome_proxy_metrics.py:46 | strip never lengthens a string |
| PyStrings.StripIsSlice | tools/chrome_proxy/integration_tests/chrome_proxy_metrics.py:46 | strip keeps one contiguous slice and removes only stripped characters from both ends |
| PyStrings.StripHasEnds | tools/chrome_proxy/integration_tests/chrome_proxy_metrics.py:46 | what strip keeps neither starts nor ends with a stripped character |
| PyStrings.StripIdempotent | tools/chrome_proxy/integration_tests/chrome_proxy_metrics.py:70 | stripping twice is stripping once |
| PyStrings.StripUnchanged | tools/chrome_proxy/integration_tests/chrome_proxy_metrics.py:70 | a string without stripped characters at its ends is left as it is |
| PyStrings.StripPadding | tools/chrome_proxy/integration_tests/chrome_proxy_metrics.py:46 | stripping a padded string gives back what was padded |
| PyStrings.From | tools/chrome_proxy/integration_tests/chrome_proxy_metrics.py:51 | v[4:] is empty for a string of at most 4 characters, and otherwise 4 characters shorter |
| ChromeProxyMetrics.StripAllHasEnds | tools/chrome_proxy/integration_tests/chrome_proxy_metrics.py:46 | no entry of the stripped list starts or ends with a stripped character, so stripping the list again changes nothing |
| ChromeProxyMetrics.ViaEntriesShape | tools/chrome_proxy/integration_tests/chrome_proxy_metrics.py:46 | the Via entries are one more than the header's commas, and none starts or ends with a space |
| ChromeProxyMetrics.ViaListed | tools/chrome_proxy/integration_tests/chrome_proxy_metrics.py:42-51 | a Via header made of comma-free entries comes through the proxy exactly when one entry, stripped of spaces, is the old-format value or is the new-format value after a 4-character version |
| ChromeProxyMetrics.ViaDeprecatedPadded | tools/chrome_proxy/integration_tests/chrome_proxy_metrics.py:46-50 | an old-format Via entry is recognised whatever spaces surround it |
| ChromeProxyMetrics.ViaWithoutVersionRejected | tools/chrome_proxy/integration_tests/chrome_proxy_metrics.py:51 | a bare "Chrome-Compression-Proxy" without a version is not recognised |
| ChromeProxyMetrics.ShouldHaveExactly | tools/chrome_proxy/integration_tests/chrome_proxy_metrics.py:25-39 | ShouldHaveChromeProxyViaHeader holds exactly when the URL starts with neither "https" nor "data:", the status is not 304, the response is not a cache hit and it has at least one header |
| ChromeProxyMetrics.IsValidExactly | tools/chrome_proxy/integration_tests/chrome_proxy_metrics.py:41-55 | IsValidByViaHeader holds exactly when the response is exempt or its Via header is present, non-empty and has an entry naming the proxy. Without a non-empty Via header it holds exactly when the response is exempt |
| ChromeProxyMetrics.ClientDirectiveNeedsEquals | tools/chrome_proxy/integration_tests/chrome_proxy_metrics.py:72-73 | a value without '=' is no client-type directive |
| ChromeProxyMetrics.ClientDirectiveOf | tools/chrome_proxy/integration_tests/chrome_proxy_metrics.py:72-74 | a value cut at its first '=' is a directive exactly when the key stripped of whitespace is "c", and then names the rest stripped of whitespace |
| ChromeProxyMetrics.FirstClientDirective | tools/chrome_proxy/integration_tests/chrome_proxy_metrics.py:71-75 | the result is None exactly when no value is a "c" directive. Otherwise it is the stripped value of the first one |
| ChromeProxyMetrics.ClientTypeOfSingleDirective | tools/chrome_proxy/integration_tests/chrome_proxy_metrics.py:57-75 | GetChromeProxyClientType of a Chrome-Proxy header that is just "c=" followed by a type without commas, '=' or surrounding whitespace is that type |
| ChromeProxyMetrics.ClientTypeAndroid | tools/chrome_proxy/integration_tests/chrome_proxy_metrics.py:62-64 | the documented example "Chrome-Proxy: c=android" names "android" |
| ChromeProxyMetrics.FirstTruthy | tools/chrome_proxy/integration_tests/chrome_proxy_metrics.py:154-158 | the result is None exactly when no entry is non-empty. Otherwise it is the first non-empty entry |
| ChromeProxyMetrics.GetClientTypeFromRequests | tools/chrome_proxy/integration_tests/chrome_proxy_metrics.py:144-158 | the loop returns the first non-empty client type in response order, or None |
| ChromeProxyMetrics.ViaOrDirect | tools/chrome_proxy/integration_tests/chrome_proxy_metrics.py:104-107 | every response is counted either as via the proxy or as direct, never both |
| ChromeProxyMetrics.CachedNotEligible | tools/chrome_proxy/integration_tests/chrome_proxy_metrics.py:31-32 | a cache hit is never eligible, so the eligible responses and the cache hits together are at most all responses |
| ChromeProxyMetrics.AddResultsForDataSaving | tools/chrome_proxy/integration_tests/chrome_proxy_metrics.py:95-116 | the three counters are the numbers of responses via the proxy, from the cache and direct, and via plus direct is the number of responses |
| ChromeProxyMetrics.AddResultsForBypass | tools/chrome_proxy/integration_tests/chrome_proxy_metrics.py:186-198 | the check passes exactly when no response carries the proxy's Via header, counting all responses. Otherwise it fails naming the first response that does |
| ChromeProxyMetrics.BypassedAreEligible | tools/chrome_proxy/integration_tests/chrome_proxy_metrics.py:242-246 | bypassed responses are among the eligible ones, and none is bypassed exactly when every response is valid by its Via header |
| ChromeProxyMetrics.AddResultsForBlockOnce | tools/chrome_proxy/integration_tests/chrome_proxy_metrics.py:238-263 | the check passes exactly when at least two responses are eligible and exactly one of them bypassed. It fails with "too few eligible" for at most one eligible response, and with "not exactly one bypass" otherwise |
| ApiPermission.IdLayout | extensions/common/permissions/api_permission.h:40-46 | kInvalid is -2 and kUnknown is -1, below the first real permission 0. The 181 real permissions end just before kEnumBoundary, and neither error code nor the boundary is a real permission |
| ApiPermission.FlagsAreDistinctBits | extensions/common/permissions/api_permission.h:341-360 | each declared flag is a single bit, no two flags share a bit, and bit 2 is unused |
| ApiPermission.ImpliesFullAccess | extensions/common/permissions/api_permission.h:384-386 | implies_full_access holds exactly when bit 0 of the flags is set |
| ApiPermission.ImpliesFullURLAccess | extensions/common/permissions/api_permission.h:389-391 | implies_full_url_access holds exactly when bit 1 is set |
| ApiPermission.SupportsOptional | extensions/common/permissions/api_permission.h:395-397 | supports_optional holds exactly when the cannot-be-optional bit 3 is clear |
| ApiPermission.IsInternal | extensions/common/permissions/api_permission.h:401-403 | is_internal holds exactly when bit 4 is set |
| ApiPermission.SupportsContentCapabilities | extensions/common/permissions/api_permission.h:407-409 | supports_content_capabilities holds exactly when bit 5 is set |
| ApiPermission.SetInternalOnly | extensions/common/permissions/api_permission.h:401-403 | adding kFlagInternal makes a permission internal and changes none of the other four answers |
| ApiPermission.SetCannotBeOptionalOnly | extensions/common/permissions/api_permission.h:395-397 | adding kFlagCannotBeOptional withdraws optional support and changes none of the other four answers |
| ApiPermission.NoFlagsPermission | extensions/common/permissions/api_permission.h:342 | a permission declared with kFlagNone implies no access, is not internal, does not support content capabilities and may be optional |

## Left out

- **Destructors.**
  - `~PendingPacket` runs its done task; the model runs it when DoRead deletes the packet.
  - `~MuxChannel` deletes the remaining packets and `~ChannelMultiplexer` deletes the channels and cancels the factory request. Neither is modelled: tear-down is outside the channel's life.
  - `~MuxSocket` is modelled as `MuxSocket.Destroy`.
- **The `StreamSocket` methods of `MuxSocket` that do nothing or are `NOTIMPLEMENTED`** (connection state, addresses, buffer sizes, statistics). They carry no state.
- **Wire framing.** Message serialisation and framing, the message reader and the parser are external codecs. The writer is an object that accepts or refuses a packet, and a write's inline completion is a parameter of `MuxSocket.Write`.
- **Buffers.** An `IOBuffer` is modelled by the byte sequence read or written; the read buffer a socket keeps is modelled by its size.
- **Threads and task lifetime.** Thread checks, the task runner and weak pointers are replaced by the explicit `tasks` queue. Tasks run only while the multiplexer is alive, so a weak pointer is never found dead.
- **Callbacks that re-enter the object that ran them.** These are not modelled; each callback is an event in the log. The sync controller records what such a callback would observe.
- Multiplexer.Enumerate: the iteration order of `std::map` (sorted by name) is left open. Any order that visits each channel once is allowed.
- **The factory's `CancelChannelCreation`,** called from `~ChannelMultiplexer`, is part of the destructor and is left out.
- MuxChannels.MuxSocket.Read: requires a positive buffer length. With a zero length the source stores the callback and returns ERR_IO_PENDING, and the next packet then trips the `DCHECK_GT(result, 0)` of `OnPacketReceived`.
- **The writer's own failure handling.** `BufferedSocketWriter` is not part of this model. Its failure is modelled as `PacketWriter.Fail`, called when the multiplexer's `OnWriteFailed` runs.
- **Net error values.** `net::ERR_IO_PENDING` (-1) and `net::ERR_FAILED` (-2) come from the net error list, which is not part of this model.
- **Sync controller externals.**
  - `SharedChangeProcessor`, the syncable service, the cryptographer, the merge results, UMA histograms and association timing are reduced to the booleans of `AssociationOutcome`.
  - `UpdateDataTypeContext` and the merge counts are not modelled.
  - `StopModels` does nothing by default and is not modelled.
  - The `StartModels` hook is the `modelsStarted` parameter, whose default is true.
  - `GetChangeProcessor` and the test-only factory setter are not modelled.
  - `IsSuccessfulResult` comes from the data type controller base class; it is modelled from its declaration order.
- **`local_service_` is not reset by `Stop`.** It is overwritten by each association's `Connect`, so `hasLocalService` records whether the last `Connect` returned a service.
- **The remaining checks of the proxy metrics.** `AddResultsForHeaderValidation`, `AddResultsForClientVersion`, `AddResultsForClientType`, `AddResultsForCorsBypass`, the safe-browsing checks and `AddResultsForReenableAfterBypass` are not modelled. Neither are `results.AddValue`, logging, tab navigation and waiting.
- **Iteration over a tab's responses** is a sequence of responses.
- **`GetHeader` is an exact lookup by name.** The network metrics base class is not part of this model.
- **`str.strip()` without arguments** is modelled with Python 2's `string.whitespace` for byte strings (space, tab, newline, carriage return, vertical tab, form feed). Unicode whitespace is not modelled.
- **Combining several permission flags with `|`** is stated one flag at a time (`SetInternalOnly`, `SetCannotBeOptionalOnly`). No lemma covers arbitrary OR-combinations of the 32-bit word. The permission declarations themselves live in the permission providers, which are not part of this model.
- **Other permission fields.** The permission names, message ids and constructors of `APIPermissionInfo` and the `APIPermission` class itself are not modelled. The 181 individual permission names are not listed; only the boundary value is.
