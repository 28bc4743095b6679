# NetworkServer and UnityDispatcher, modelled in Dafny

This project models the server half of BotMender's networking layer and the
main-thread dispatcher it relies on.

- `networking.dfy` (module `Networking`) is the static `NetworkServer` as a
  sequential state machine. It covers the start/stop lifecycle and the session
  set. It covers the process-wide byte counter that gives sessions their ids
  1..255. It covers the TCP router (tag byte, handler table, bytes after the
  tag) and the per-session UDP freshness filter (reset flag plus last accepted
  `ushort` timestamp). It covers the choice of recipients for the broadcast
  tick and for the three `SendTcpToAll` overloads.
- `utilities.dfy` (module `Utilities`) is `UnityDispatcher`: a FIFO queue of
  actions, drained to empty by the main thread. In simulated-network mode, a
  UDP packet's action can be lost.

How the model is shaped:

- Transport notifications are the methods `OnFullAuthentication`,
  `OnTcpReceived`, `OnUdpReceived` and `OnLostConnection`. Each one returns the
  `Callback` that the source passes to `UnityDispatcher.Invoke`, or `None` when
  it queues nothing.
- `Server.RunCallback` is that callback running later on the main thread. Each
  callback first checks that the server is still running.
- Sends are not performed. Each is returned as one `Send(to, bytes)` per
  recipient.
- In the dispatcher, an action is a finite tree `Action(id, spawns)`. Running
  it enqueues `spawns` through `InvokeNoDelay`, which models re-entrant
  enqueueing.
- `Drain` is the specification of one `CheckInvokables` call.
- `byte` and `ushort` are integer subtypes. The byte increment and decrement
  of the id counter wrap modulo 256, and that wrap is written out (`Inc`,
  `Dec`).

Behaviour of the code worth knowing:

- `OnTcpReceived` checks the handler table in two stages. It checks the tag's
  range on the receiving thread (`TcpReceive`). It checks for an empty slot
  only when the queued callback runs (`CallbackEffect`). `TcpRouting`
  composes the two.
- A new `NetworkServerClient` starts with baseline 0 and no reset pending. Its
  first UDP packet therefore passes only the newest-check, like any other
  (`NewSessionFirstPacket`).
- `SendTcpToAll(Action<ByteBuffer>)` builds `realWriter` inside the `using`
  block of the shared `_resettingByteBuffer`
  (Assets/Scripts/Networking/NetworkServer.cs:158-163). It issues the sends
  after that block has ended (lines 165-167). `realWriter` reads
  `_resettingByteBuffer.WriteIndex` only when a send runs it. If disposing
  the buffer resets that index, every recipient is sent zero bytes. The
  buffer's class is not part of this model, so this is a possible source
  issue only. The model takes as given that every recipient gets the bytes
  the writer produced.

Assumptions about code that is not part of this model:

- `DoubleProtocol.IsPacketNewest` is not part of this model. `IsNewer`
  assumes a wrap-aware rule: a timestamp is newer when it lies 1..32767 steps
  ahead of the baseline on the 16-bit cycle. On acceptance the baseline
  becomes that timestamp.
- The `NetworkPacket` enum is not part of this model. It is taken to be
  byte-backed, so a tag is one byte. Its member count is the handler table's
  length, a parameter of the `Server` constructor.
- `DoubleServer.ClientState` is reduced to `Authenticated` and
  `NotAuthenticated`.

## Model

| member | source | states |
|---|---|---|
| `Networking.NextId` | Assets/Scripts/Networking/NetworkServer.cs:329-334 | an allocation issues old counter + 1 exactly when the counter is below 255, and the counter then equals the id; at 255 it fails and the counter stays 255 (never 0) |
| `Networking.IssueRunExact` | Assets/Scripts/Networking/NetworkServer.cs:315-338 | the i-th of n successive allocations from counter c issues c + i + 1 while that is at most 255 and fails from then on, so every later attempt fails too |
| `Networking.IssuedIdsDistinct` | Assets/Scripts/Networking/NetworkServer.cs:329-338 | two successful allocations of one run give non-zero ids, the later strictly larger: ids are never reused |
| `Networking.IdSpaceExhaustion` | Assets/Scripts/Networking/NetworkServer.cs:330-333 | from a fresh counter the first 255 allocations issue 1..255 in order and the 256th fails |
| `Networking.UdpFilter` | Assets/Scripts/Networking/NetworkServer.cs:279-283 | a UDP packet is accepted iff the reset flag was set or it passes the newest-check; when accepted, the new baseline is its timestamp, whatever the old one |
| `Networking.AcceptedRunIsNewest` | Assets/Scripts/Networking/NetworkServer.cs:279-283 | without a reset, each accepted timestamp is newer than the previously accepted one (the first newer than the start baseline) |
| `Networking.AcceptedRunFromArrivals` | Assets/Scripts/Networking/NetworkServer.cs:280-281 | the accepted timestamps are a subsequence of the arrivals: the filter only drops packets and never reorders or invents one |
| `Networking.AcceptedRunExample` | Assets/Scripts/Networking/NetworkServer.cs:277-283 | on a new session, arrivals 5, 3, 7, 7, 6 let through exactly 5 and 7 |
| `Networking.ResetAcceptsOlder` | Assets/Scripts/Networking/NetworkServer.cs:279-280 | with baseline 200, timestamp 10 fails the newest-check, yet after a reset it is accepted and becomes the baseline |
| `Networking.NewSessionFirstPacket` | Assets/Scripts/Networking/NetworkServer.cs:319-321 | a new session (baseline 0, flag clear) accepts its first packet iff its timestamp is in 1..32767 |
| `Networking.DuplicateDropped` | Assets/Scripts/Networking/NetworkServer.cs:281-282 | with no reset pending, a packet carrying the baseline's own timestamp is dropped |
| `Networking.Session.constructor` | Assets/Scripts/Networking/NetworkServer.cs:323-325 | a new session holds its transport handle, id 0, baseline 0 and a clear reset flag |
| `Networking.Session.Initialize` | Assets/Scripts/Networking/NetworkServer.cs:329-343 | the counter and the session's id move as NextId says; on success the session joins the issued set with a fresh id, on failure its id is untouched; distinct non-zero ids of all issued sessions are preserved |
| `Networking.Session.SetResetPacketTimestamp` | Assets/Scripts/Networking/NetworkServer.cs:345-349 | the reset flag is set |
| `Networking.Session.TakeResetPacketTimestamp` | Assets/Scripts/Networking/NetworkServer.cs:351-357 | returns the flag's old value and clears it, so a second take with no set in between returns false |
| `Networking.IdCounter.constructor` | Assets/Scripts/Networking/NetworkServer.cs:315 | the process starts with counter 0 and no session issued an id |
| `Networking.TcpRouting` | Assets/Scripts/Networking/NetworkServer.cs:253-272 | a received TCP buffer reaches a handler iff the server runs, the buffer holds a tag, the tag is below the table length and its slot is set; the handler then gets exactly the bytes after the tag, otherwise nothing happens |
| `Networking.SessionSetChanges` | Assets/Scripts/Networking/NetworkServer.cs:242-305 | the session set is unchanged after Stop; a session joins only by its authentication callback and leaves only by its lost-connection callback |
| `Networking.BroadcastCount` | Assets/Scripts/Networking/NetworkServer.cs:89-93 | a broadcast makes exactly one send per target session |
| `Networking.FanOut` | Assets/Scripts/Networking/NetworkServer.cs:207-211 | the foreach loop sends the same bytes once to each session of the set that the filter admits, and to no one else |
| `Networking.Server.ClientIdsUnique` | Assets/Scripts/Networking/NetworkServer.cs:239-251 | every live session has a non-zero id and no two live sessions share one |
| `Networking.Server.constructor` | Assets/Scripts/Networking/NetworkServer.cs:62-70 | the initial static state: not running, no sessions, no payload, every handler slot empty |
| `Networking.Server.Initialized` | Assets/Scripts/Networking/NetworkServer.cs:34-39 | true exactly when the server runs (`_server != null`), which is exactly when ClientCount reports a count rather than -1 |
| `Networking.Server.ClientCount` | Assets/Scripts/Networking/NetworkServer.cs:42 | -1 exactly when not initialized, otherwise the number of sessions |
| `Networking.Server.Start` | Assets/Scripts/Networking/NetworkServer.cs:77-95 | requires not initialized; afterwards initialized with ClientCount 0, payload and id counter untouched |
| `Networking.Server.Stop` | Assets/Scripts/Networking/NetworkServer.cs:101-112 | requires initialized; afterwards no payload, every handler slot cleared, not initialized, ClientCount -1, id counter and issued ids untouched |
| `Networking.Server.SetUdpPayload` | Assets/Scripts/Networking/NetworkServer.cs:56-60 | the payload becomes the given value |
| `Networking.Server.SetTcpHandler` | Assets/Scripts/Networking/NetworkServer.cs:126-128 | the packet type's slot becomes the handler, every other slot is unchanged |
| `Networking.Server.Tick` | Assets/Scripts/Networking/NetworkServer.cs:87-94 | with a non-empty payload, the payload goes once to every session; with none or an empty one nothing is sent |
| `Networking.Server.SendTcpToAll` | Assets/Scripts/Networking/NetworkServer.cs:153-168 | when running, the bytes go once to every session; when not, nothing is sent |
| `Networking.Server.SendTcpToAllExcept` | Assets/Scripts/Networking/NetworkServer.cs:173-190 | when running, the bytes go once to every session except `excluding`; when not, nothing is sent |
| `Networking.Server.SendTcpToAllFiltered` | Assets/Scripts/Networking/NetworkServer.cs:195-212 | when running, the bytes go once to every session that passes the filter; when not, nothing is sent |
| `Networking.Server.TcpAuthenticateClient` | Assets/Scripts/Networking/NetworkServer.cs:231-237 | every connection is accepted with a new session attached; that session has id 0, baseline 0 and a clear reset flag |
| `Networking.Server.OnFullAuthentication` | Assets/Scripts/Networking/NetworkServer.cs:239-251 | fails iff the counter is at 255; then the counter stays 255, the session keeps its id, no id is issued and nothing is queued. Otherwise the session gets old counter + 1, the counter equals that id, the session joins the issued set, the reply carries the id and the add-session callback is queued |
| `Networking.Server.OnTcpReceived` | Assets/Scripts/Networking/NetworkServer.cs:253-263 | queues the packet callback iff the buffer holds a tag below the table length, with the bytes after the tag |
| `Networking.Server.OnUdpReceived` | Assets/Scripts/Networking/NetworkServer.cs:277-294 | the reset flag is cleared; an accepted packet moves the baseline to its timestamp and queues the UDP callback; a rejected one keeps the baseline and queues nothing |
| `Networking.Server.OnLostConnection` | Assets/Scripts/Networking/NetworkServer.cs:296-308 | queues the remove-session callback iff the connection was authenticated |
| `Networking.Server.RunCallback` | Assets/Scripts/Networking/NetworkServer.cs:242-305 | after Stop a callback changes nothing and calls nothing; otherwise it adds or removes its session and calls the connect, handler, UDP or disconnect callback; live ids stay unique |
| `Utilities.Drain` | Assets/Scripts/Utilities/UnityDispatcher.cs:68-80 | a drain makes exactly one step per queued action and per action enqueued while it runs |
| `Utilities.DrainHandlesEachOnce` | Assets/Scripts/Utilities/UnityDispatcher.cs:68-80 | the multiset of actions a drain handles is exactly the queued actions plus everything the plain ones enqueue, transitively: each is handled once and nothing else is |
| `Utilities.DrainHandlesQueueFirst` | Assets/Scripts/Utilities/UnityDispatcher.cs:68-80 | the actions queued when a drain starts are handled first, in enqueue (FIFO) order |
| `Utilities.DrainRunsSpawnedAfterQueued` | Assets/Scripts/Utilities/UnityDispatcher.cs:71-78 | actions that the first action enqueues while it runs are run in the same drain, right after everything already queued |
| `Utilities.DrainLosesExactlyLossy` | Assets/Scripts/Utilities/UnityDispatcher.cs:36-41 | a drain drops exactly the UDP actions whose loss was decided, in order; a non-UDP action is never dropped |
| `Utilities.Dispatcher.constructor` | Assets/Scripts/Utilities/UnityDispatcher.cs:12 | the queue starts empty |
| `Utilities.Dispatcher.InvokeNoDelay` | Assets/Scripts/Utilities/UnityDispatcher.cs:52-56 | appends exactly the action at the back; earlier entries and their order are unchanged |
| `Utilities.Dispatcher.InvokePacketHandling` | Assets/Scripts/Utilities/UnityDispatcher.cs:34-46 | with simulation off it is InvokeNoDelay; with it on, the latency/loss wrapper of the action is appended instead |
| `Utilities.Dispatcher.Run` | Assets/Scripts/Utilities/UnityDispatcher.cs:37-41 | a plain action runs and appends what it enqueues; a wrapper schedules a delayed start, or does nothing for a UDP action whose loss was decided |
| `Utilities.Dispatcher.CheckInvokables` | Assets/Scripts/Utilities/UnityDispatcher.cs:68-80 | returns only with an empty queue, having handled the entries exactly as Drain of the old queue says |
| `Utilities.Dispatcher.Update` | Assets/Scripts/Utilities/UnityDispatcher.cs:60-62 | drains the queue to empty |
| `Utilities.Dispatcher.FixedUpdate` | Assets/Scripts/Utilities/UnityDispatcher.cs:64-66 | drains the queue to empty |

## Left out

- The DoubleSocket transport (`DoubleServer`, `SendTcp`, `SendUdp`, `Disconnect`, `Close`) is a foreign library. A send is returned as a `Send` value. `Kick` and the single-recipient `SendTcp` are one transport call each, so they are not modelled.
- The encryption key read in `TcpAuthenticateClient` is handed to the transport only, so it is not modelled.
- `ForEachClient` applies an arbitrary application action to each session. It is the same loop as the sends, so it has no model of its own.
- Threads and locks are left out: the ticking thread's timing, `UdpPayloadLock`, `SmallLock`, the lock on `_actions`, and the empty `SmallLock` barrier that `Initialize` queues. Every operation runs atomically, one after another.
- The serialization buffers (`ResettingByteBuffer`, `MutableByteBuffer`) are not modelled. A payload is the byte sequence the writer produced. A handler receives exactly the bytes after the tag.
- Application callbacks (`onConnected`, `onDisconnected`, the UDP handler and the TCP handlers) are outside code. They are modelled as the `Effect` a callback returns. A TCP handler is an opaque `Handler` token.
- Simulated latency (coroutines, `CoroutineUtils.Delay`, `SimulatedLatency`) is reduced to the outcome `Delayed`. The later run of a delayed action is not modelled.
- `ShouldLoseUdpPacket` is random in the source. Here it is a boolean input given at enqueue time, although the source evaluates it when the wrapper runs.
- Unity's `MonoBehaviour` lifecycle (`Awake`, `OnDestroy`, `DontDestroyOnLoad`) is left out. The dispatcher is a single object that always exists.
- `UnityDispatcher.Invoke` is not part of this model. The server's callbacks are returned as `Callback` values rather than passed to a `Dispatcher`, and `Invoke` is taken to be the plain enqueue of `InvokeNoDelay`.
- The filter of `SendTcpToAllFiltered` is a pure predicate over sessions. It cannot read mutable session state.
- `Utilities.Dispatcher.CheckInvokables`: actions are finite trees that cannot throw, so the drain always ends. In the source, `while (true)` never returns when actions keep enqueuing further actions without end. An exception thrown by `action()` (Assets/Scripts/Utilities/UnityDispatcher.cs:78) leaves `CheckInvokables` with the rest of the queue still queued until the next `Update`. Neither case is modelled.
- `Networking.Server.RunCallback`: requires that the callback was produced by the receive methods (`WellFormed`: its tag is in range, and an added session has an id). The source's closures capture only such values.
