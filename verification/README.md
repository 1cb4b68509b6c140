# Agent concurrency and framing, verified

A Dafny model of the parts of the hoop agent that are hard to get right by
reading: the goroutines that share a session while it is torn down, the ownership
of its MCP gateway and stdio backend, the reassembly of byte streams that arrive
in arbitrary pieces, and the RDP relay that rewrites one PDU.

`dafny verify dfyconfig.toml` checks the project. It needs Dafny 4.11.

## How it is built

Concurrent code is a state, a set of atomic steps (one map operation, one locked
section, one channel operation, one lock or unlock) and a function `After` that
applies a list of steps to the initial state. A step that is not possible leaves
the state alone, so *every* list of steps is a run, and a theorem about
`After(steps)` for all `steps` speaks of every interleaving and every reachable
state. Nothing bounds the number of sessions, connections, queues, workers,
callers or cleanups.

Safety alone would be met by a program that does nothing. So for each protocol there
are also theorems that say what its steps bring about, and progress theorems: from
*every* reachable state some further steps of the goroutines already running bring a
worker, a call, a close or a cleanup to its end.

Objects whose methods update their fields are classes. `PacketQueue` and
`EventSink` carry a ghost log, and their methods are proved to move the log by the
steps of the state machine, so the theorems over all runs are about them too.
`Inspector` and `HttpProxy` are proved against functions of the bytes fed.

| module | models |
|---|---|
| `PacketQueues` | the per-connection packet FIFO and its drain worker |
| `Keys` | connection keys and the two filters session cleanup uses |
| `SessionTeardown` | recv loop, SSH and MCP workers, the session lock, cleanup |
| `SessionServing` | what becomes of every packet received; workers and cleanups end |
| `McpGateway` | who builds, evicts, reclaims and closes a session's gateway |
| `McpCalls` | what a call for the gateway returns; calls and cleanups end |
| `StdioBackend` | the stdio backend's Send, Close, Start, deliver and acks |
| `StdioDelivery` | what is on the wire, where messages and acks go, why a Send fails |
| `EventSinks` | the audit event sink: bounded queue, drop, flush, stop |
| `HttpRegistry` | registering an HTTP proxy so that a close can reach its write |
| `HttpServing` | which proxy a packet is written to; closes end; no proxy is lost |
| `Framing` | cutting a stream into messages, whatever pieces it comes in |
| `Inspection` | the wire-protocol inspector |
| `Chunked`, `HttpProxying` | chunked bodies and the HTTP proxy's reassembly |
| `RdpIntercept` | the Client Info interception |

## Where the code falls short of what it says

Each of these has a lemma with a failing case, and a lemma with the exact condition
under which the promise is kept.

- A write in flight on an HTTP proxy cannot always be reached by a close. Connection
  close and cleanup work on a snapshot of the store and later delete the key
  without comparing (agent/controller/agent.go:485, 528), so a proxy registered in
  between is removed unclosed (`RebuiltProxyIsCut`). A session opened after its
  cleanup has begun can get two workers on one connection, and then one deletes
  the other's key (`LateSessionIsCut`). These are the only ways:
  `ReachableExactly` for every run; and if no session is opened late, every write
  stays reachable exactly when nothing but what was closed is deleted under it
  (`StaleExactly`).
- The comment on reclaiming a gateway built during cleanup
  (agent/controller/mcpproxy.go:260-266) does not hold for callers without the
  session lock: `LockFreeCallerCanStrand`, and exactly which by `StrandedExactly`.
  On the packet path, which holds the lock, it does.
- `Start` of a stdio backend unlocks before it stores the backend. A closed backend
  stays registered exactly when Close removed it in that gap: `LateStartLeaks`,
  `LeftInRegistryExactly`.
- Feeding the inspector an empty slice is documented as a no-op
  (hoopinspect/inspect.go:418-419). It is one exactly when no more than
  `maxBuffer` bytes are buffered: `EmptyChunkIsNoOp`, `EmptyChunkCanOverflow`.
- The HTTP proxy looks for the first `0\r\n\r\n` behind the headers, so chunk data
  can look like the end of the body. A chunked request is forwarded as sent when
  no chunk hides such an end and refused when one does: `ChunkedRoundTrip`,
  `LeadingCrlfIsRefused`.
- Cleanup's prefix filter on queue keys takes a queue of another session exactly
  when one of the two session ids with its colon begins the other:
  `QueueFilterMixesExactly`, `QueueFilterNeedsColonFree`. Ids without a colon are
  safe (`QueueFilterIsExact`).
- A packet queue goes on accepting after a refusal, so what it accepts is not the
  arrivals up to it: `AcceptsAfterOverflow`, `AcceptedAreArrivals`.
- The RDP patch checks that the Client Info PDU re-encodes to the same bytes, but
  not the request around it, which it may change: `RequestIsNotChecked`,
  `PatchKeepsRequestExactly`.

## Model

| member | source | states |
|---|---|---|
| `PacketQueues.QueueHistory` | agent/controller/packetqueue.go:46-81 | Over every interleaving of pushes, worker sections and handler returns: handled packets, the one in flight and the queue concatenate to the accepted packets in order; exactly one worker exists iff the queue is running; a queue that is not running is empty; the byte count is the sum of the payloads and both caps hold. |
| `PacketQueues.AcceptedAreArrivals` | agent/controller/packetqueue.go:46-51 | The accepted packets are all the arrivals if and only if no push of the run was refused; otherwise they are strictly fewer. |
| `PacketQueues.AcceptsAfterOverflow` | agent/controller/packetqueue.go:42-51 | A refused packet does not fail the queue: a later one is accepted, so acceptance is no prefix of the arrivals. |
| `PacketQueues.AcceptsExactly` | agent/controller/packetqueue.go:46-53 | At any point of any run a packet is accepted exactly when fewer than 4096 wait and the payloads waiting, with its own, are at most 64 MiB. |
| `PacketQueues.WorkerCatchesUp` | agent/controller/packetqueue.go:67-81 | From every reachable queue, steps of worker and handlers alone lead to everything accepted being handled and no worker being left. |
| `PacketQueues.PacketQueue.constructor` | agent/controller/packetqueue.go:35-40 | A fresh queue is the state machine's initial state. |
| `PacketQueues.PacketQueue.Push` | agent/controller/packetqueue.go:46-59 | A push is the `Arrive` step; a worker is asked for exactly when the packet was accepted and there was none, and it then holds the only slot. |
| `PacketQueues.PacketQueue.Take` | agent/controller/packetqueue.go:67-78 | One locked section of the worker is the `Fetch` step and yields the oldest packet. |
| `PacketQueues.PacketQueue.Drain` | agent/controller/packetqueue.go:67-81 | The worker, with pushes arriving while it handles, leaves only when everything accepted has been handled in order, and leaves the queue empty, idle and not running. |
| `Keys.QueueFilterExactly` | agent/controller/agent.go:534-564 | For any ids: cleanup of one session selects a queue of another exactly when one id with its colon begins the other and the connection id supplies what is missing. |
| `Keys.QueueFilterMixesExactly` | agent/controller/agent.go:534-564 | Some queue key of a session is selected by the cleanup of another exactly when one of the ids with its colon begins the other. |
| `Keys.QueueFilterIsExact` | agent/controller/agent.go:534-564 | Hence colon-free session ids never mix, and their keys determine session and connection. |
| `Keys.QueueFilterNeedsColonFree` | agent/controller/agent.go:534-564 | Two different session ids that do mix. |
| `Keys.StoreFilterExactly` | agent/controller/agent.go:512-529 | For any ids: the substring filter selects a connection exactly when the session id occurs in the connection's session id, in its connection id, or across the colon between them. |
| `Keys.StoreFilterOfColonFree` | agent/controller/agent.go:512-529 | A colon-free session id selects exactly the connections whose session or connection id it occurs in. |
| `SessionTeardown.AtMostOneEffectiveHandler` | agent/controller/ssh.go:48-115 | At most one SSH or MCP handler of a connection can have effect at a time, even when late packets made further queues and workers for its key. |
| `SessionTeardown.SecondWorkerArises` | agent/controller/agent.go:544-564 | There is a run in which one connection has two queue objects, each with a live worker, because a packet arrived after cleanup dropped the queue. |
| `SessionTeardown.ActsInArrivalOrder` | agent/controller/ssh.go:74-115 | Only one queue object of a connection ever acts, on a prefix of the packets it accepted: in arrival order, none skipped. |
| `SessionTeardown.RegistersOnlyWhileOpen` | agent/controller/mcpproxy.go:81-162 | A handler about to register a proxy has an open session. |
| `SessionTeardown.NothingRegisteredAfterCleanup` | agent/controller/agent.go:499-569 | Once a cleanup has swept the store, no proxy an SSH or MCP handler registered for the session is there, then or later. |
| `SessionTeardown.ClosedIsTerminal` | agent/controller/agent.go:499-511 | From any state with the session closed, whatever runs next: it stays closed, no queue object of it acts on another packet, and no proxy is registered for it. |
| `SessionServing.ReceivedAreQueued` | agent/controller/ssh.go:48-67 | While a session is open, every packet received for a connection has been pushed to the connection's one queue in order, or is about to be, and unless the queue overflowed it accepted them all. |
| `SessionServing.ActedAreWritten` | agent/controller/ssh.go:74-202 | In every run the packets acted on, but for one whose handler is still at it, are those written and those given up, each in order; all were written if none was given up; and each under the key of its own session and connection. |
| `SessionServing.WriteEndsExactly` | agent/controller/mcpproxy.go:112-125 | A failed MCP write deletes the connection's key; a failed SSH write and every successful one leave the store alone. |
| `SessionServing.ConnectionIsServed` | agent/controller/ssh.go:74-202 | From every reachable state in which the session is open and no cleanup of it holds the lock, steps of the connection's worker alone, none of them giving up, lead to every accepted packet being acted on and, but for those given up before, written in order; and the proxy is registered if any packet was still queued. |
| `SessionServing.QueuesAreDropped` | agent/controller/agent.go:534-564 | Once a cleanup is over, no queue that ever acted for the session is in the maps. |
| `SessionServing.CleanupCanEnd` | agent/controller/agent.go:499-569 | From every reachable state, steps of workers and cleanups under way bring a cleanup to its end. |
| `McpGateway.ClosedAtMostOnce` | agent/controller/mcpproxy.go:208-283 | Whoever calls, with or without the session lock, no gateway is closed twice. |
| `McpGateway.EvictsOnlyItsOwnFailure` | agent/controller/mcpproxy.go:237-281 | A caller that saw a failed build removes that failed holder or nothing; a replacement stays. |
| `McpGateway.NothingLeftInMap` | agent/controller/mcpproxy.go:489-521 | Whoever called, when everything has finished nothing is left in the gateway map. |
| `McpGateway.StrandedExactly` | agent/controller/mcpproxy.go:489-521 | When everything has finished, a gateway built was closed exactly once, except precisely when cleanup took its holder and found the gateway field nil; and a sink started was stopped exactly once, except precisely when its gateway was built and cleanup found the sink field nil. |
| `McpGateway.LockFreeCallerCanStrand` | agent/controller/mcpproxy.go:260-281 | There is a run with a caller without the session lock after which a gateway is never closed and its sink never stopped. |
| `McpGateway.AtMostOneLiveGateway` | agent/controller/mcpproxy.go:208-283 | With callers on the packet path a session never has two live gateways. |
| `McpGateway.SinkStopsAfterGateway` | agent/controller/mcpproxy.go:503-519 | On the packet path a gateway's sink is stopped only after the gateway was closed. |
| `McpGateway.TornDownByCleanup` | agent/controller/mcpproxy.go:489-521 | On the packet path, once a cleanup is over, every gateway ever built was closed exactly once, every sink started was stopped and the map is empty. |
| `McpCalls.ReturnsGateway` | agent/controller/mcpproxy.go:237-282 | A call returns a gateway that was built without error, or an error because it saw the session closed or its holder's build failed; nothing else. |
| `McpCalls.ErrExactly` | agent/controller/mcpproxy.go:217-236 | A holder has an error exactly when a step of its build failed. |
| `McpCalls.ReturnedGatewayIsLive` | agent/controller/mcpproxy.go:282 | On the packet path the gateway a call is about to return is in the map and not closed. |
| `McpCalls.SameGateway` | agent/controller/mcpproxy.go:215-217 | On the packet path, while the session is open, all calls whose build did not fail have returned the same gateway. |
| `McpCalls.CallCanReturn` | agent/controller/mcpproxy.go:208-283 | From every reachable state, steps of callers and cleanups under way bring a call to its return. |
| `McpCalls.CleanupCanEnd` | agent/controller/mcpproxy.go:489-521 | And a cleanup to its end. |
| `StdioBackend.NothingFollowsClose` | agent/controller/mcpstdio.go:186-361 | For any number of senders and closers the wire carries at most one close and no request after it. |
| `StdioBackend.NeverPanics` | agent/controller/mcpstdio.go:297-361 | No reachable step sends on a closed channel or closes one twice: all waiters' channels are open, and the receive channel is open exactly until Close. |
| `StdioBackend.SuccessMeansAcked` | agent/controller/mcpstdio.go:186-269 | A Send succeeds only if the first ack with its own request id that arrived after its waiter was registered carries no error. |
| `StdioBackend.FirstAckIsKept` | agent/controller/mcpstdio.go:394-446 | The first ack for a waiting Send is never lost: the Send can take it, and its outcome is then what that ack says. |
| `StdioBackend.FeedInOrder` | agent/controller/mcpstdio.go:297-310 | What the pump consumed followed by the buffer is what was accepted, in order; the buffer never exceeds 64; messages that arrived while open are accepted or counted as dropped. |
| `StdioBackend.LockIsGranted` | agent/controller/mcpstdio.go:232-361 | Progress: from every reachable state in which a goroutine waits for a lock, finitely many steps of other goroutines already running lead to a state in which it can take it. |
| `StdioBackend.CallCanReturn` | agent/controller/mcpstdio.go:148-361 | From every reachable state, steps of goroutines already running bring a Send, Close, Start or reply to its return. |
| `StdioBackend.LeftInRegistryExactly` | agent/controller/mcpstdio.go:148-159 | When everything has finished, a closed backend is still registered exactly when, at the moment Close removed it, some Start had unlocked and not stored yet. |
| `StdioBackend.LateStartLeaks` | agent/controller/mcpstdio.go:148-159 | There is a run after which a closed backend stays registered for good. |
| `StdioDelivery.RequestsOnWire` | agent/controller/mcpstdio.go:186-269 | In every run no request is on the wire twice; that of a Send that has written it, waits or returned success is there once; that of a Send that has not come to writing it, or whose write did not happen, is not. |
| `StdioDelivery.CloseOnWireExactly` | agent/controller/mcpstdio.go:322-361 | When everything has finished, the close is on the wire of a closed backend exactly when it had been started and the transport took the message. |
| `StdioDelivery.DeliverExactly` | agent/controller/mcpstdio.go:297-310 | A message delivered to an open backend joins the buffer unless 64 wait there, and is counted as dropped if so; a closed one takes nothing. |
| `StdioDelivery.PumpCatchesUp` | agent/controller/mcpstdio.go:40-50 | From every reachable state the pump alone gets everything accepted, in order. |
| `StdioDelivery.WaitingSends` | agent/controller/mcpstdio.go:322-347 | While the backend is open a waiting Send is a waiter; once a Close has gone through the waiters its channel is closed and it can go on. |
| `StdioDelivery.AckExactly` | agent/controller/mcpstdio.go:428-446 | An ack for a waiter is recorded, and kept in its channel if it is the first; any other changes nothing. |
| `StdioDelivery.ReturnedIsForgotten` | agent/controller/mcpstdio.go:186-214 | A Send that has returned is no waiter. |
| `StdioDelivery.FailureHasReason` | agent/controller/mcpstdio.go:186-269 | A Send fails only if its encoding or write failed, its context ended, the backend was closed, or the first ack says so. |
| `EventSinks.SinkHistory` | agent/controller/mcpproxy.go:827-898 | Over every run: attempted sends followed by the queue are the accepted events in emission order, offers are accepted or counted as dropped, the queue holds at most 1024, there is one send at a time, and a goroutine that left its flush without a send error attempted everything accepted before the stop. |
| `EventSinks.FlushedByCleanExit` | agent/controller/mcpproxy.go:844-898 | Whatever ran before and after the first stop, a clean exit has attempted, in order, every event accepted by then. |
| `EventSinks.HistoryGrowsRun` | agent/controller/mcpproxy.go:827-874 | No run changes what was already accepted or attempted, a second stop changes nothing, and nothing is attempted once the goroutine has left. |
| `EventSinks.FlushErrorLoses` | agent/controller/mcpproxy.go:857-867 | A send error while flushing does lose an event accepted before the stop. |
| `EventSinks.EventSink.Enqueue` | agent/controller/mcpproxy.go:827-839 | Emitting is the `Offer` step: queued, or dropped and counted, never blocked. |
| `EventSinks.EventSink.Stop` | agent/controller/mcpproxy.go:893-898 | Stopping is the `Stop` step, whose second occurrence changes nothing. |
| `EventSinks.EventSink.Flush` | agent/controller/mcpproxy.go:860-874 | With events still arriving, the flush ends, and it ends cleanly, with the queue empty, exactly when every send it made succeeded. |
| `EventSinks.EventSink.Drain` | agent/controller/mcpproxy.go:844-855 | The goroutine leaves once its select takes quit and not before, and until then sends an event a turn while there is a backlog. |
| `HttpRegistry.ReachableExactly` | agent/controller/httpproxy.go:81-259 | Over every run: all writes in flight are reachable at every moment exactly when none that no Close has meets a deletion of its key by a close or cleanup that closed something else, or another worker of its connection about to delete or register. |
| `HttpRegistry.OnlyStaleDeletions` | agent/controller/agent.go:466-529 | In every reachable state of a run without late opens, the next step of anything else makes a reachable, unclosed write unreachable exactly when it is a close or cleanup deleting its key with something other than what it closed there; no worker's own deletion or registration ever does. |
| `HttpRegistry.StaleExactly` | agent/controller/agent.go:466-529 | Lifted to whole runs without late opens, both directions. |
| `HttpRegistry.InFlightIsReachable` | agent/controller/httpproxy.go:232-259 | Hence it suffices that no session is opened once its cleanup has begun and no proxy is registered under a key a close has in its snapshot and has not deleted yet. |
| `HttpRegistry.RebuiltProxyIsCut` | agent/controller/agent.go:466-488 | A run without late opens in which a connection close deletes the proxy built after its snapshot and leaves its write unreachable. |
| `HttpRegistry.LateSessionIsCut` | agent/controller/agent.go:499-540 | A run without registrations under held keys in which a session opened after its cleanup gets two workers on one proxy, and the failure of one cuts off the other. |
| `HttpServing.WritesToRegistered` | agent/controller/httpproxy.go:92-115 | In every reachable state with the parameters present, an idle worker's next packet is written to the proxy registered for its connection, if there is one. |
| `HttpServing.WritesToNew` | agent/controller/httpproxy.go:232-259 | And to a new one, registered before the write, if there is none. |
| `HttpServing.WriteEnds` | agent/controller/httpproxy.go:92-259 | A successful write changes nothing; a failed one ends with the proxy handed to Close and the key deleted. |
| `HttpServing.SnapshotExactly` | agent/controller/agent.go:466-529 | A connection close takes exactly the registered proxies under its keys, a cleanup everything under them and at least all of its session's. |
| `HttpServing.CloseReachesAll` | agent/controller/agent.go:466-529 | Once a close has gone through its snapshot every proxy in it has been handed to Close. |
| `HttpServing.CloseCanEnd` | agent/controller/agent.go:466-529 | From every reachable state its own steps bring it there. |
| `HttpServing.NoProxyIsLost` | agent/controller/httpproxy.go:232-259 | Without late opens and racing registrations, every proxy built is registered, handed to Close, or in the hands of the worker about to register or close it. |
| `Framing.ScanIsMaximal` | hoopinspect/inspect.go:305-320 | A scan stops only at a partial or a malformed message. |
| `Framing.ScanSplit` | hoopinspect/inspect.go:305-320 | Scanning a piece, and later its rest with more bytes behind, finds the same messages and uses the same bytes as one scan of the whole. |
| `Inspection.Inspector.Inspect` | hoopinspect/inspect.go:420-459 | A call leaves exactly the buffer and returns exactly the outcome of the function `Inspected`, on the malformed, overflow and clean paths. |
| `Inspection.Inspector.Feed` | hoopinspect/inspect.go:420-472 | Feeding chunks until an error gives the run `Fed` that the lemmas are about. |
| `Inspection.FedIsOneDecode` | hoopinspect/inspect.go:311-319 | For a maximal, prefix-stable, length-framed codec and any chunking without an overflow: the statements, the error and the retained tail are those of one decode of the whole stream. |
| `Inspection.AnyChunking` | hoopinspect/inspect.go:414-459 | If every message fits, that holds for every chunking. |
| `Inspection.OverflowFreeExactly` | hoopinspect/inspect.go:433-447 | A stream overflows under no chunking if and only if every message of it is recognised within `maxBuffer` bytes. |
| `Inspection.BufferedBound` | hoopinspect/inspect.go:462-476 | Over every error-free run the buffer never exceeds the larger of `maxBuffer` and the largest chunk fed. |
| `Inspection.EmptyChunkIsNoOp` | hoopinspect/inspect.go:418-431 | An empty chunk is a no-op if and only if the buffer is within `maxBuffer`; otherwise it is an overflow. |
| `Inspection.EmptyChunkCanOverflow` | hoopinspect/inspect.go:418-431 | A codec and a feed after which an empty chunk overflows. |
| `Inspection.FailuresDropBuffer` | hoopinspect/inspect.go:433-459 | A failed call drops the buffer and returns what was decoded; it is an overflow exactly when more than `maxBuffer` bytes are there without progress. |
| `Chunked.BodyRoundTrip` | _libhoop/httpproxy.go:202-211 | Decoding a chunked body undoes encoding it, for every list of non-empty chunks. |
| `Chunked.NoEarlyEndExactly` | _libhoop/httpproxy.go:197-202 | The first `0\r\n\r\n` of an encoded body is its own end if and only if no chunk's data holds one, ends in `0\r\n`, or starts with CRLF and has a size divisible by sixteen. |
| `Chunked.CutBody` | _libhoop/httpproxy.go:202-206 | An encoded body cut anywhere before its last chunk is no chunked body. |
| `Chunked.HexRoundTrip` | _libhoop/httpproxy.go:202-206 | Chunk sizes read back as written, and size lines hold no CR, blank or semicolon. |
| `Chunked.CapitalSize` | _libhoop/httpproxy.go:202-206 | Sizes in capitals read the same. |
| `Chunked.ExtensionIsIgnored` | _libhoop/httpproxy.go:202-206 | A chunk extension does not change the size. |
| `HttpProxying.ReaderIsStable` | _libhoop/httpproxy.go:176-217 | A request recognised or refused at the front of the buffer stays so whatever bytes follow. |
| `HttpProxying.ReadSelfContained` | _libhoop/httpproxy.go:176-217 | A request is recognised from its own bytes alone. |
| `HttpProxying.HttpProxy.Write` | _libhoop/httpproxy.go:148-172 | Consumed bytes plus buffer are all bytes written; the requests forwarded and the rest are those of one scan of everything written; the rest holds no complete request; the cap, the refusal and the upstream error are told apart. |
| `HttpProxying.HttpProxy.Serve` | _libhoop/httpproxy.go:156-172 | The inner loop ends, having forwarded every complete request in order, or stops at the first refusal or upstream error. |
| `HttpProxying.ServedIsOneScan` | _libhoop/httpproxy.go:148-172 | Any writes that fail nowhere forward exactly the requests of the joined stream and keep exactly its rest. |
| `HttpProxying.SplitsServeAlike` | _libhoop/httpproxy.go:148-172 | Two ways of splitting the same bytes that fail nowhere forward the same requests and keep the same rest. |
| `HttpProxying.ServesExactly` | _libhoop/httpproxy.go:148-172 | No write fails exactly when none finds more than 32 MiB waiting and nothing malformed turns up. |
| `HttpProxying.SizedRoundTrip` | _libhoop/httpproxy.go:189-196 | A request with a Content-Length is its header and exactly that many bytes, whatever follows. |
| `HttpProxying.BareRoundTrip` | _libhoop/httpproxy.go:213-216 | One with neither a length nor chunks is its header. |
| `HttpProxying.UpgradeIsRefused` | _libhoop/httpproxy.go:185-187 | One that asks for an upgrade is refused. |
| `HttpProxying.ChunkedRoundTrip` | _libhoop/httpproxy.go:176-217 | For every list of non-empty chunks and whatever bytes follow: if no chunk hides an end the request is consumed exactly and forwarded with the concatenated chunks as its body, and if one does it is refused. |
| `HttpProxying.LeadingCrlfIsRefused` | _libhoop/httpproxy.go:197-206 | In particular a chunk, anywhere in the list, with a size divisible by sixteen whose data starts with CRLF. |
| `HttpProxying.PartOfMessage` | _libhoop/httpproxy.go:176-217 | A proper part of a well-formed request is neither forwarded nor refused. |
| `HttpProxying.StreamIsServed` | _libhoop/httpproxy.go:148-217 | However the requests of a client, sized, bare and chunked, are cut into writes: if none fails, the upstream got exactly those requests in order and nothing is left. |
| `RdpIntercept.Intercept` | agentrs/src/rdp_proxy.rs:623-664 | For every interleaving of PDUs, read errors and write errors: the loop ends at the first event that ends it, the client got the server's PDUs verbatim, and the server got the client's with at most the last one replaced. |
| `RdpIntercept.RelaysIsExact` | agentrs/src/rdp_proxy.rs:623-664 | That contract determines the outcome, the events used and both outputs. |
| `RdpIntercept.GivesUpAfter33` | agentrs/src/rdp_proxy.rs:636-661 | The loop gives up exactly when 33 client PDUs were relayed unpatched; of the client PDUs relayed only the last can be one that patching accepts, and only when it was patched. |
| `RdpIntercept.PatchExactly` | agentrs/src/rdp_proxy.rs:670-733 | A frame is patched to another exactly when it decodes to a request with an info that re-encodes to what was sent, has time zone and session id, and the other encodes the same request around the same info with the low four flags set. |
| `RdpIntercept.ClientIsPatched` | agentrs/src/rdp_proxy.rs:707-732 | In particular every client sending time zone and session id, whatever its flags, is patched. |
| `RdpIntercept.PatchOnlyAddsFlags` | agentrs/src/rdp_proxy.rs:670-733 | With round-tripping codecs the replacement has the same initiator, channel and info, credentials, time zone, session and cookie included, except for the OR-ed performance flags. |
| `RdpIntercept.PatchIsIdempotent` | agentrs/src/rdp_proxy.rs:670-733 | Patching a patched frame gives the same frame. |
| `RdpIntercept.PatchKeepsRequestExactly` | agentrs/src/rdp_proxy.rs:684-733 | For every frame patched without changing the length of the info: the bytes around the info are kept if and only if the request re-encodes to the frame. |
| `RdpIntercept.RequestIsNotChecked` | agentrs/src/rdp_proxy.rs:690-733 | The failing case: lawful codecs that ignore a byte of the request, and a frame whose info needs no change but whose byte is changed. |
| `RdpIntercept.ForcedKeepsFlags` | agentrs/src/rdp_proxy.rs:596-602 | No flag the client set is lost, every forced one is set, and forcing twice is forcing once. |

## Left out

- Postgres, MySQL, MSSQL, MongoDB, Oracle, SSM, TCP and terminal handlers: thin
  forwarding without the session lock; to the teardown model they are steps that
  put foreign entries in the store or delete any entry.
- Connection environment parsing, MCP policy and option maps, configuration: flat
  branching.
- `hoopinspect/sqlmeta.go`, `registry.go`, the PII gate of `agentrs/src/proxy.rs`,
  `session.rs`, `logshipper.go`: easy members, or their hard content is elsewhere.
- Transport, TLS, CredSSP, processes, cloud clients: a send is a step that appends
  to a log or fails.
- Real time: the flush budget, context deadlines and the wait for a stopped sink
  are steps that may or may not happen; `waitStopped` is not modelled.
- The gateway library, the ironrdp codecs and `http.ReadRequest` are parameters
  with stated laws: prefix-stable success and an outcome decided by the header
  block for the parser, round trips for the codecs. `http.ReadRequest`'s own
  parsing is not modelled, nor the line and digit limits of the chunked reader.
- Machine integers: request ids, byte counts and `Content-Length` are unbounded
  here; a request-id counter that wraps after 2^64 sends, or a total length over
  2^63, is not covered.
- A read lock is granted whenever no cleanup holds the write lock; Go also holds
  readers back while a writer waits, so the model has more interleavings.
- The goroutine loops `run` and `flush` of the sink are the methods `Drain` and
  `Flush` over a given list of turns, and single steps in the state machine.
- RdpIntercept.Intercept: a write that fails counts as not delivered, although
  part of the frame may have reached the peer; the forwarding of what follows the
  loop is not modelled.
- HttpProxying.HttpProxy.Write: the request handed upstream is the parsed header
  and the body; the response path and the WebSocket mode are not modelled.
- HttpProxying.IsChunked: a request is chunked when its list of transfer
  encodings has the word; the parser delivers it in lower case.
- Session ids in `SessionTeardown` hold no colon, as generated ids do; with one, the
  prefix filter can drop a live session's queue, as `QueueFilterMixesExactly` says.
- RdpIntercept.PatchKeepsRequestExactly: says nothing of a frame without a flags
  field, whose info grows and whose header has to change.
