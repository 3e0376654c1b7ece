# PSDK bridge daemon: a Dafny model and its proofs

The daemon relays JSON-RPC requests to a DJI drone. This project models its logic and proves what it
guarantees over whole runs, with peers, the kernel, json-c and the DJI SDK left free to do anything
their interfaces allow.

| file | content |
|---|---|
| `Common.dfy` | integer widths and optional values |
| `Framing.dfy` | the newline protocol as a function of the whole byte stream |
| `LineServer.dfy` | the epoll line server and its kernel as a state machine: states, actions, runs |
| `LineServerInvariant.dfy` | its invariant, kept by every action |
| `LineServerTheorems.dfy` | what follows for every reachable state and every run |
| `TcpServer.dfy` | `tcp_server.c` itself: slot objects and receive buffers edited in place, refining that machine |
| `Text.dfy` | `snprintf` and its `%u`, `%d`, `%.Nf` conversions |
| `Rpc.dfy` | `rpc.c`: parsing over json-c with tree ownership, reply text and its decoder |
| `Handler.dfy` | `handler.c` and the development drone: request to outcome |
| `ReplyLengths.dfy` | replies fit their buffers |
| `Client.dfy` | how a client reads numbers and flat JSON objects, knowing nothing of the formats |
| `Pipeline.dfy` | whole runs: datagrams in, replies out |
| `Service.dfy` | every method end to end: name and parameters in; effect, and reply as the client reads it, out |
| `Daemon.dfy` | `udp_server.c` and `handler.c` with their mutable state, computing those runs |
| `TelemetryCache.dfy` | the subscription cache and the two battery getters |
| `CacheRace.dfy` | both battery getters interleaved with the callback threads |
| `Waypoint.dfy` | waypoint initialisation and KMZ upload as a trace of SDK, file and heap calls |

Conventions. Bytes are Dafny characters where only comparisons with a few of them matter. Everything
nondeterministic is an action parameter, a method parameter or an unconstrained choice: read sizes,
accepted descriptor numbers (reuse included), epoll batches, peers that connect, send, hang up or fail at
any moment between two system calls, what the message callback closes, SDK results, clock readings. An
epoll event carries what accept() and EPOLL_CTL_ADD will answer if it leads to them, and a running
callback what it will return, so the server has no say in either.
json-c (parser, conversions, the cast to `float`) and the SDK's structure layouts are arbitrary
functions, except that the cast keeps -1 and 0, the defaults of missing parameters. Floating-point values are finite: a sign and a non-negative real magnitude.

Where the code disagrees with its comments or with what it is for, the model follows the code:

- `core/server/tcp_server.h:7-8` says a line is handed over once it is complete. `recv_client` reads
  until the socket is empty before it looks for lines, so a hang-up, a failure or a full buffer in the
  same burst discards complete lines. `HangUpCanLoseLine` exhibits one; `DoomedNeverServed` and
  `RecvServesUnlessDoomed` give the exact condition on what the socket and the buffer hold.
- `include/drone_types.h:28` calls the receive buffer a ring; it is linear.
- `core/proto/rpc.h:38` promises -1 on overflow; `rpc_build_*` return the would-be length of
  `snprintf` (ISO/IEC 9899:2011, section 7.21.6.5). `ReplyWholeUnlessLongUpload` says
  exactly when length and content agree, `LongNameOverruns` shows a request for which they do not.
- `drone_ctrl_deinit` undoes the waypoint initialisation only if its flag is up, which it is not after
  a failed registration, and clears the flag even if the SDK refuses: see `FailedRegistrationLeavesInit`,
  `FailedDeInitLeavesInit` and `Run` in `Waypoint`.
- `drone_upload_kmz` allocates the file size modulo 2^32 but reads the full size into the buffer:
  `UploadKmz` counts such a read exactly when a file of 2^32 bytes or more gets that far.
- A battery getter takes the whole-battery sample before it tests that topic's freshness, and a callback
  stamps its topic after it has copied the sample, so the verdict can belong to a newer or to an older
  sample than the one reported: see `NeverReceivedJudgedFresh` and `JustStoredJudgedStale`.
  `VerdictFitsExactly` and `VerdictOffset` say exactly when it belongs to the one reported.

## Model

| member | source | states |
|---|---|---|
| Framing.UnlinesLines | core/server/tcp_server.c:136-155 | splitting loses nothing: the lines, terminated again, followed by the tail are the input, and no part contains a newline |
| Framing.LinesUnlines | core/server/tcp_server.c:136-155 | the split is unique: any newline-free lines and tail are recovered from their concatenation |
| Framing.MessagesConcat | core/server/tcp_server.c:157-161 | cutting a stream anywhere and carrying the unterminated tail over yields the same messages and tail as the uncut stream |
| Framing.MessagesOfWire | core/server/tcp_server.c:136-155 | whatever non-empty one-line texts not ending in CR a peer writes, each ended by LF or CR LF, with any number of LF and CR LF in between, the messages are exactly those texts, and an unended rest waits |
| Framing.SecondCRStays | core/server/tcp_server.c:140-144 | only one CR is removed: a line ending in two keeps one |
| LineServerInvariant.Keeps | core/server/tcp_server.c:43-270 | every action of kernel, peers, callback and server keeps the invariant on descriptors, slots, count, framing, wake-ups and control |
| LineServerTheorems.ReachableInv | core/server/tcp_server.c:43-270 | the invariant holds in every state reachable from a freshly created server by any run |
| LineServerTheorems.LiveClientFramed | core/server/tcp_server.c:109-162 | for every live client not being received from, the dispatched lines are exactly the non-empty CR-stripped lines of all bytes read, and the buffer is exactly the unterminated rest, at most 8190 bytes |
| LineServerTheorems.ChunkingInvisible | core/server/tcp_server.c:109-162 | two runs that read the same bytes from a client, however cut into reads and polls, dispatched the same lines and keep the same buffer |
| LineServerTheorems.DispatchedIsPrefix | core/server/tcp_server.c:109-162 | for every connection ever accepted, open or closed for any reason, the dispatched lines are a prefix of the messages of its own bytes |
| LineServerTheorems.NoLostWakeup | core/server/tcp_server.c:97-131 | between polls every live client with unread bytes, end of stream or failure still has an edge pending |
| LineServerTheorems.QuietClientFullyServed | core/server/tcp_server.c:97-162 | a live client without pending edge has had everything its peer ever sent read and every message in it dispatched |
| LineServerTheorems.SenderUnderstood | core/server/tcp_server.c:97-162 | in the sender's terms: a quiet client's callback has been given exactly the texts the peer wrote, whichever line ends it used |
| LineServerTheorems.DescriptorOwned | core/server/tcp_server.c:50-106 | each accepted connection is in exactly one slot if and only if not closed, and is closed at most once |
| LineServerTheorems.DestroyedLeaksNothing | core/server/tcp_server.c:262-270 | after destroy every accepted connection has been closed exactly once and no client, epoll or listening descriptor is open |
| LineServerTheorems.AdmissionFindsSlot | core/server/tcp_server.c:50-95 | client_count equals the number of used slots, is within bounds, live descriptors are distinct, and the admission test passes if and only if there is a free slot |
| LineServerTheorems.EveryCallerInOrder | core/server/tcp_server.c:71-106 | over any run the callers that arrived are those accepted or refused, in order of arrival, followed by those still waiting: none forgotten, taken twice or overtaken |
| LineServerTheorems.ListenAnswered | core/server/tcp_server.c:71-95 | an event of the listening socket is answered by accept(); if someone waits and a number is handed out, exactly the first caller is taken with all it has sent, stored if and only if fewer than eight clients are open and otherwise closed once |
| LineServerTheorems.RegistrationAnswered | core/server/tcp_server.c:97-102 | a stored client is kept if and only if epoll takes it, with an event due at once if it has anything to read; otherwise it is closed and its slot free |
| LineServerTheorems.WaitingCallerTaken | core/server/tcp_server.c:233-239 | a caller waiting when the listening event is next, with a number handed out, has been taken by the end of the poll whatever else happens |
| LineServerTheorems.VerdictObeyed | core/server/tcp_server.c:146-153 | a client whose callback asks for it is closed at once and gets no further line over any run; one whose callback does not stays |
| LineServerTheorems.HistoryOnlyGrows | core/server/tcp_server.c:62-68 | over any run sent, read and dispatched data of each connection only grow, and a closed connection never changes again, whatever happens to its slot and number |
| LineServerTheorems.LinesStayWithTheirConnection | core/server/tcp_server.c:137-155 | a step that adds a line to a connection handles the slot holding that connection's descriptor, and the line is cut out of the end of that connection's own bytes |
| LineServerTheorems.StaleEventHarmless | core/server/tcp_server.c:236-244 | an event is skipped if and only if its number is not an open client; otherwise it drains the connection that has the number now |
| LineServerTheorems.CloseLosesBuffered | core/server/tcp_server.c:62-68 | closing a client discards exactly the messages in its buffer; all its messages were dispatched if and only if the buffer holds none, which is always so for clients not being received from |
| LineServerTheorems.HangUpCanLoseLine | core/server/tcp_server.c:110-131 | a concrete run in which a complete line is read, the client closed, and the line never dispatched |
| LineServerTheorems.DoomedStep | core/server/tcp_server.c:110-131 | the drain loop drops the client only if end of stream, a failure or a backlog of at least 8191 bytes is already there, and goes on to the lines only if none is; a doomed client stays doomed with nothing dispatched until dropped |
| LineServerTheorems.DoomedNeverServed | core/server/tcp_server.c:110-131 | over any run whatsoever, no further line of a doomed client is ever dispatched, before or after it is dropped |
| LineServerTheorems.RecvServesUnlessDoomed | core/server/tcp_server.c:109-162 | after any run of one recv_client call to which the peer adds nothing and in which the callback keeps the client, either all it sent was dispatched, or it was doomed at the start and nothing more was |
| TcpServer.TcpServer.constructor | core/server/tcp_server.c:166-231 | a new server represents the initial state: eight free slots with separate buffers |
| TcpServer.TcpServer.FindClient | core/server/tcp_server.c:43-48 | the first slot holding the descriptor, or none |
| TcpServer.TcpServer.AllocClient | core/server/tcp_server.c:50-60 | below the client limit a free slot is always found; it is the first, and no other slot changes |
| TcpServer.TcpServer.FreeClient | core/server/tcp_server.c:62-68 | deregisters and closes the slot's descriptor, frees the slot, and leaves every other slot and all buffers alone |
| TcpServer.TcpServer.AcceptClient | core/server/tcp_server.c:71-106 | with a caller waiting and a number handed out, exactly the first caller is taken, and kept exactly when there was room and epoll took it, otherwise closed once; else nothing changes |
| TcpServer.TcpServer.Drain | core/server/tcp_server.c:110-131 | the in-place read loop ends with the socket not readable, or with the client closed for the reason returned, which the kernel state justifies; it terminates by free space |
| TcpServer.TcpServer.DrainOnce | core/server/tcp_server.c:111-130 | one round: the buffer grows by what was read and stays below 8192; EAGAIN only if nothing is readable, closed for a full buffer exactly when it held 8191 bytes, for end of stream or failure only if the socket shows it |
| TcpServer.TcpServer.ReadInto | core/server/tcp_server.c:118-130 | the bytes read are appended to the buffer in place |
| TcpServer.Memchr | core/server/tcp_server.c:137 | the first newline in the range, or its end |
| TcpServer.TakeLine | core/server/tcp_server.c:138-144 | the line is NUL-terminated in place, one byte shorter exactly when its last byte is a CR; nothing after the newline changes |
| TcpServer.TcpServer.EditLine | core/server/tcp_server.c:138-144 | what lies between start and the NUL is the message the machine dispatches next, and the rest of every buffer is intact |
| TcpServer.TcpServer.OnMessage | core/server/tcp_server.c:146-153 | the bytes handed to the callback are the connection's next message, whatever other clients the callback closes; its answer is the one the machine must obey |
| TcpServer.TcpServer.DispatchLine | core/server/tcp_server.c:138-154 | one round of the line loop: the next line is dispatched or skipped if blank, and the client closed if the callback asks |
| TcpServer.TcpServer.Dispatch | core/server/tcp_server.c:133-161 | the line loop and the shift keep buffer and machine in step; the NUL store, the search and the move stay in bounds; no newline is left behind |
| TcpServer.ShiftBuffer | core/server/tcp_server.c:157-161 | the unterminated rest moves to the front unchanged |
| TcpServer.TcpServer.CloseClient | core/server/tcp_server.c:257-260 | closes exactly the client with that descriptor, or nothing, also from inside a callback of another client |
| TcpServer.TcpServer.HandleEvent | core/server/tcp_server.c:236-244 | one event is handled by legal actions and removed from the batch; one of the listening socket takes the first waiting caller, kept as accept_client promises |
| TcpServer.TcpServer.Poll | core/server/tcp_server.c:233-245 | exactly the batch the kernel reports is handled by a run of legal actions; a caller due in it has been taken; afterwards every live client's lines are those of the split, its buffer is the rest, and waiting input has an edge |
| TcpServer.TcpServer.Destroy | core/server/tcp_server.c:262-270 | closes each open client once, then epoll and listening descriptors |
| TcpServer.Lifetime | core/server/tcp_server.c:166-270 | create, any number of polls and closes, destroy: every descriptor closed exactly once, every connection served a prefix of the messages it sent |
| Text.IntRoundTrip | core/proto/rpc.c:57-65 | reading a printed %d back gives the number, and it contains no comma |
| Text.FixedReadsBack | core/handler/handler.c:99-115 | a printed %.Nf denotes the value to within half a unit in the last place |
| Text.FixedLength | core/handler/handler.c:99-115 | length bounds of %.Nf from a bound on the magnitude |
| Rpc.RpcRequest.Parse | core/proto/rpc.c:11-45 | succeeds exactly on objects with a method and then holds the only unreleased tree, the id the object gives or -1, the first 63 bytes of the method string and the params member if any; on failure every tree handed out has been released once |
| Rpc.RpcRequest.Free | core/proto/rpc.c:47-53 | afterwards every tree has been released exactly once |
| Rpc.DecodeResult | core/proto/rpc.c:57-61 | kind, id and payload of any result reply are recovered from its text, for every 32-bit id, with a missing or empty result read as {} |
| Rpc.DecodeError | core/proto/rpc.c:63-65 | kind, id and message of any error reply are recovered from its text, so it never coincides with a result |
| Handler.UptimeExact | core/handler/handler.c:51-59 | the borrow arithmetic gives the elapsed nanoseconds divided by 10^6, rounded down |
| Handler.TruncationInvisible | core/proto/rpc.h:21 | cutting a method name of any length to 63 bytes never changes the handler chosen |
| Handler.RequestDispatch | core/proto/rpc.c:37-38 | a parsed request is dispatched as its full method string would be |
| Handler.Named | core/handler/handler.c:336-374 | each handler is reached by its own method string and by no other |
| Handler.ReplyDecodes | core/handler/handler.c:63-77 | a reply that went out whole tells the client its request's id and the outcome |
| ReplyLengths.TelemetryLength | core/handler/handler.c:98-115 | for coordinates within 180 degrees and any finite single-precision values the telemetry object has at most 475 characters, so its 512-byte buffer cuts nothing |
| ReplyLengths.ResultsUncut | core/handler/handler.c:92-178 | no read handler's result is cut by its local buffer |
| ReplyLengths.ReplyWholeUnlessLongUpload | core/handler/handler.c:63-210 | for every request, state and surroundings the reply goes out with length equal to bytes written if and only if it does not report a successful upload with twice the accepted file name plus the digits of the id above 4012 characters |
| ReplyLengths.UploadWhole | core/handler/handler.c:180-210 | the same for the upload handler alone, its three error replies included |
| Client.FixedReads | core/handler/handler.c:99-115 | a client reads a printed %.Nf, sign included, as a number within half a unit of the last place |
| Client.ObjectReads | core/handler/handler.c:98-177 | a client reads a printed flat object as exactly its keys and value texts, in order |
| Pipeline.TrimLongest | core/server/udp_server.c:87-91 | the handler gets a prefix not ending in newline, CR or space, and only such characters are dropped |
| Pipeline.TrimUnique | core/server/udp_server.c:87-91 | no other prefix has that property |
| Pipeline.TrailingBlanksInvisible | core/server/udp_server.c:81-98 | blanks appended to any datagrams of a run, however many, change neither replies nor state |
| Pipeline.OneReplyEach | core/handler/handler.c:316-378 | over any run the replies correspond one to one and in order to the datagrams that hold an object with a method, each to the peer and with the id member of its own object, and each whole if and only if its request is no successful upload under a long name |
| Pipeline.ClientsCanMatchReplies | core/handler/handler.c:63-77 | in any run, uploads included, a client reads off the bytes received the id member of its own object, or -1 if it had none, unless it uploaded successfully under a long name |
| Pipeline.LongNameOverruns | core/handler/handler.c:196-209 | one request of fewer than 4096 bytes, uploading under a name of 2010 characters, whose reply is sent with a length beyond its 4096-byte buffer |
| Pipeline.TakeWrites | core/handler/handler.c:213-310 | a datagram sets exactly the value its own method string and parameters write; a rejected or failed one changes nothing |
| Pipeline.LastWriteWins | bsp/drone_ctrl.c:655-706 | after any run the drone holds the last accepted altitude, pitch, zoom, mode and recording choice |
| Pipeline.UnwrittenKeepsInitial | bsp/drone_ctrl.c:584-588 | what was never written keeps its initial value |
| Pipeline.HoldsLastWrite | bsp/drone_ctrl.c:655-706 | after any run the drone holds, for each kind, the result of folding the accepted writes over the initial value |
| Pipeline.DroneStaysSane | core/handler/handler.c:213-261 | in every reachable state zoom >= 1, return altitude >= 0 and mode >= 0 |
| Pipeline.StartIsFirstPing | core/handler/handler.c:44-48 | the start time is the first reading of the first ping of the run, and stays |
| Pipeline.UptimeOverRun | core/handler/handler.c:41-60 | with a monotone clock each ping of a run reports the whole milliseconds since the first, and reports never decrease |
| Service.CameraReplyTellsLastWrites | core/handler/handler.c:150-161 | from the bytes of the get_camera_state reply after any run: mode reads as the last accepted mode, is_recording is true if and only if the last accepted choice was to start, zoom_factor is within 0.005 of the last accepted zoom, initial values if none; nothing changes |
| Service.GimbalReplyTellsLastWrite | core/handler/handler.c:136-147 | from the bytes of the get_gimbal_angle reply after any run: pitch within 0.005 of the last accepted one, roll and yaw 0.00 |
| Service.BatteryReplyTellsFigures | core/handler/handler.c:120-133 | from the bytes of the get_battery_info reply: each figure, exactly and under its own key |
| Service.TelemetryReplyTellsFigures | core/handler/handler.c:92-117 | from the bytes of the get_telemetry reply: all fourteen figures under their own keys, exactly or to the precision printed |
| Service.RtkReply | core/handler/handler.c:164-178 | the development drone reports no RTK |
| Service.PingReplyReports | core/handler/handler.c:83-89 | from the bytes of a ping's reply: the uptime of that moment, modulo 2^64 |
| Service.ReadFails | core/handler/handler.c:92-178 | a read that fails is answered with its own error message |
| Service.AltitudeServed | core/handler/handler.c:213-223 | set_rth_altitude: refused if missing or negative, refused if the drone call fails, otherwise acknowledged with {} and held; each as decoded from the reply |
| Service.GimbalServed | core/handler/handler.c:226-235 | set_gimbal_angle: the pitch given, or 0, is held and acknowledged, or the failure reported |
| Service.ModeServed | core/handler/handler.c:238-248 | set_camera_mode: refused if missing or negative, otherwise held and acknowledged, or the failure reported |
| Service.ZoomServed | core/handler/handler.c:251-261 | set_camera_zoom: refused if missing or below 1, otherwise held and acknowledged, or the failure reported |
| Service.RecordingServed | core/handler/handler.c:300-310 | start_recording and stop_recording set the choice and acknowledge, or report their own failure |
| Service.HomeServed | core/handler/handler.c:264-278 | set_home_location: acknowledged exactly for a latitude within 90 and a longitude within 180 degrees when the call succeeds |
| Service.ObstacleServed | core/handler/handler.c:281-291 | set_obstacle_avoidance: refused if missing or negative, otherwise acknowledged, or the failure reported |
| Service.PhotoServed | core/handler/handler.c:294-298 | shoot_photo: acknowledged, or the failure reported |
| Service.UploadServed | core/handler/handler.c:180-210 | upload_kmz: its three refusals, and on success the name given and the path under the KMZ directory, as decoded from the reply |
| Service.OthersServed | core/handler/handler.c:325-374 | any other method string is answered "method not found"; a datagram that is no request is not answered and changes nothing |
| Daemon.RpcHandler.Uptime | core/handler/handler.c:44-60 | sets the start time once and returns the elapsed milliseconds |
| Daemon.RpcHandler.Change | core/handler/handler.c:213-310 | the write handlers update exactly their variable, and only when accepted; each parameter is looked up through the borrowed pointer, which demands a live tree |
| Daemon.RpcHandler.Upload | core/handler/handler.c:180-210 | the upload handler looks its file name up through the borrowed pointer and gives the specified outcome in all four cases |
| Daemon.RpcHandler.Look | core/handler/handler.c:92-298 | the handlers that leave the drone alone give the specified outcome; those not handed the parameters do without |
| Daemon.RpcHandler.HandleRpc | core/handler/handler.c:316-378 | state and replies are those of the specification and every json-c tree is released exactly once; as the handlers demand a live tree, the release comes after them |
| Daemon.UdpServer.Receive | core/server/udp_server.c:81-85 | at most 4095 bytes arrive, followed by the terminator, inside the buffer |
| Daemon.UdpServer.TrimBuffer | core/server/udp_server.c:87-91 | the in-place loop computes the trimmed message and terminates it |
| Daemon.UdpServer.Poll | core/server/udp_server.c:74-99 | one datagram has the effect of one turn of the specification, although the handler sees the whole buffer as a C string |
| Daemon.Run | app/main.c:106-111 | over any datagram sequence the daemon reaches the state and sends the replies of the specification, with no tree leaked or released twice |
| TelemetryCache.CacheIsLastAccepted | bsp/drone_ctrl.c:138-218 | after any callback history each topic holds its last long-enough sample and its stamp, and counts accepted samples modulo 2^32, independently of other topics |
| TelemetryCache.FreshMeansRecent | bsp/drone_ctrl.c:83-93 | the whole-battery topic is fresh exactly when its last accepted sample has a non-zero stamp at most 5000 ms old |
| TelemetryCache.Cache.OnSample | bsp/drone_ctrl.c:73-81 | a callback stores the leading bytes, the count and the stamp of its topic, or nothing if the data is short |
| TelemetryCache.Cache.GetTelemetryBattery | bsp/drone_ctrl.c:305-338 | charge: the whole battery's if at most 5000 ms old or no pack has reported, else the only pack's, or the mean of two rounded down; voltage: the whole battery's, or the higher of the packs', a non-negative one unchanged |
| TelemetryCache.Cache.GetBatteryInfo | bsp/drone_ctrl.c:344-381 | the same charge; voltage and temperature: the highest of those the stale path considers, an old whole-battery voltage among them if pack 1 is silent; current: the old whole-battery current plus the packs', defined exactly when no partial sum leaves int32_t |
| TelemetryCache.CompareGetters | bsp/drone_ctrl.c:292-381 | both getters at one instant report the same charge, and different voltages exactly when the whole battery is stale, only pack 2 has reported, and the old whole-battery voltage is higher |
| CacheRace.Keeps | bsp/drone_ctrl.c:138-218 | with copy and stamp as separate steps and either getter reading one cell at a time, every step keeps: a cell shows its last copy, open and stamped copies were made, what the getter holds was delivered |
| CacheRace.PacksCountedAreGenuine | bsp/drone_ctrl.c:312-374 | in every interleaving, for both getters: a pack counted is a sample that pack delivered, and a fresh verdict rests on the stamp of a delivered whole-battery sample |
| CacheRace.EventsTell | bsp/drone_ctrl.c:73-81 | after any run a topic's sample is its last copy, and its stamp and that stamp's owner are those of its last stamping |
| CacheRace.VerdictTold | bsp/drone_ctrl.c:305-352 | after any getter run up to the freshness test, the sample in hand, the copy it is, the copy judged and the verdict, each as a function of the whole-battery events |
| CacheRace.VerdictFitsExactly | bsp/drone_ctrl.c:305-352 | over all runs the stamp tested is that of the sample reported if and only if the last stamping before the test is by the callback of the last copy before the getter began |
| CacheRace.FittingVerdictSound | bsp/drone_ctrl.c:83-93 | then fresh means that the very sample reported was delivered and stamped at most 5000 ms before the test |
| CacheRace.VerdictOffset | bsp/drone_ctrl.c:305-352 | with callbacks of the topic one at a time, the copy judged is the copy reported plus the stampings between the two looks minus the callback open at the first; so the verdict fits if and only if these numbers are equal |
| CacheRace.NeverReceivedJudgedFresh | bsp/drone_ctrl.c:346-352 | an interleaving in which a sample never received is reported as fresh, in both getters |
| CacheRace.JustStoredJudgedStale | bsp/drone_ctrl.c:346-352 | an interleaving in which a sample just stored is judged stale by its predecessor's stamp, in both getters |
| CacheRace.FallbackCounts | bsp/drone_ctrl.c:312-337 | although the telemetry getter tests the pack stamps twice, a fallback once taken counts at least one pack in every interleaving without a zero stamp |
| CacheRace.PackTold | bsp/drone_ctrl.c:319-374 | a pack is counted if and only if its last stamp before the look is non-zero, and then with the sample in place at the second look |
| CacheRace.ZeroStampLosesPacks | bsp/drone_ctrl.c:312-337 | an interleaving with a stamp of zero in which the fallback counts no pack and reports zero volts |
| CacheRace.UndisturbedRead | bsp/drone_ctrl.c:292-381 | after any run, either getter without interference ends with the readings of one instant |
| CacheRace.UndisturbedReport | bsp/drone_ctrl.c:292-381 | and reports exactly what the getter computes from that instant |
| Waypoint.OpenCloseBalance | bsp/drone_ctrl.c:523-558 | in every legal trace a file is opened at most once and closed exactly once unless still open |
| Waypoint.MallocReleaseBalance | bsp/drone_ctrl.c:551-566 | in every legal trace a buffer is allocated at most once and freed exactly once unless still held |
| Waypoint.UploadsWereReady | bsp/drone_ctrl.c:565 | every upload follows a successful Init and both registrations with no DeInit in between |
| Waypoint.WaypointModule.EnsureReady | bsp/drone_ctrl.c:108-135 | succeeds exactly when already up or all three calls succeed; every successful Init is accounted for by a successful DeInit, a failed registration, a failed DeInit or the flag |
| Waypoint.WaypointModule.Deinit | bsp/drone_ctrl.c:268-274 | takes the flag down whether or not the SDK call succeeds; as many Inits stay undone as registrations and DeInits failed |
| Waypoint.WaypointModule.UploadKmz | bsp/drone_ctrl.c:507-575 | which of the codes 0, -1, -2, -99 is returned, if and only if which step failed; upload made and length for every combination of failures; nothing stays held; the length equals the file size, and the read fits its buffer, exactly below 2^32 bytes |
| Waypoint.WaypointModule.SendFile | bsp/drone_ctrl.c:551-574 | the buffer uploaded is live, was filled from the open file, has the length uploaded, and is freed once; the read asks for more than the buffer holds if and only if the file has 2^32 bytes or more |
| Waypoint.Run | bsp/drone_ctrl.c:268-575 | over any sequence of uploads and shutdowns with any failures, files, buffers and readiness are in order, unmatched Inits equal failed registrations plus failed DeInits, and no read overruns its buffer if all files are below 2^32 bytes |
| Waypoint.FailedRegistrationLeavesInit | bsp/drone_ctrl.c:120-130 | one failed registration leaves one Init without DeInit after shutdown |
| Waypoint.FailedDeInitLeavesInit | bsp/drone_ctrl.c:268-274 | one failed DeInit, with every registration in order, leaves one Init in place after shutdown |

## Left out

- Socket creation, bind, listen, command line, signals and logging: plumbing without state of its own.
- tcp_server_send: two raw writes without handling of partial writes.
- The return values of set_nonblock and setsockopt, which the code ignores: client sockets are taken to be non-blocking.
- Re-entry of tcp_server_poll from the message callback, and closing its own descriptor there: excluded by the callback's contract.
- TcpServer.TcpServer.CloseClient: requires a non-negative descriptor, because -1 is the mark of a free slot and `find_client` would match it.
- Connections the kernel turns away or drops before accept() returns them (backlog, ECONNABORTED): they never count as arrived. An accept() that fails otherwise leaves the queue as it was.
- Timeouts of poll() and failed recvfrom() calls: they return without effect, so a run is the sequence of datagrams received.
- HAL registration and SDK core start-up: straight-line calls into a closed SDK.
- json-c internals: a parser and conversions with ownership; a null method is taken to convert to some string.
- NaN, infinities and overflow of the cast to float: conversions yield finite values.
- The remaining telemetry fields of the real build (heading, radian conversion, satellites, flight status) and the stub's sine wave: trigonometry and copies.
- The other setters of the real build: one SDK call each; the handlers are modelled with the call failing or succeeding.
- Telemetry and battery values inside Pipeline are inputs of each request, not read from the cache model.
- Torn reads of a single sample: in CacheRace copying a sample, stamping a topic and reading a cell are atomic.
- The current sum of drone_get_telemetry: computed and thrown away, so its possible signed overflow is not modelled.
- The bytes a too long read or send touches beyond its buffer: the model records that and when it happens, not what is there.
- tools/, shell scripts, makefiles: device setup and operations.
