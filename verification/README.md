# Audio control protocols and the scan launcher: a verified model

This project models the parts of the repository that keep state across many events, and proves what holds over
all their runs: the Android audio stack of BlueZ (AVDTP signalling, the AVCTP control channel, AVRCP responses, the
adapter's device lists and discovery, and the pacing of the audio stream) and the launcher that schedules the
fingerprinting tools.

Every component is modelled in the same way. A datatype holds its state, a function gives the effect of each entry
point, branch by branch as the program has it, and a step function over events makes runs of them. Sockets, clocks,
the kernel and the handlers of the upper layer become parts of the events, so that a law over all runs is a law
over everything these may answer. Where the program updates state in place there is also a class with its fields,
whose methods, loops included, are proved to do what the functions say. Some fields only record what has happened
(which requests were sent and how they ended, what the HAL was told, which packets were written); the program does
not have them, and apart from numbering what happens only the statements of the laws read them.

| file | component |
|---|---|
| `common.dfy` | bytes, options, lists of identifiers |
| `avdtp_wire.dfy` | fragmentation and reassembly of signalling messages (section 8.4 of AVDTP 1.3) |
| `avdtp_caps.dfy` | capability lists |
| `avdtp_session.dfy`, `avdtp_pipeline.dfy`, `avdtp_discovery.dfy` | one session: its request pipeline and its discovery |
| `avdtp_object.dfy` | the same session as an object |
| `signalling_world.dfy` | all sessions, streams, end points, transports and timers, and the events that change them |
| `signalling_safety.dfy`, `signalling_events.dfy`, `signalling_commands.dfy`, `signalling_runs.dfy` | what every event keeps, and the laws of all runs |
| `signalling_laws.dfy`, `signalling_scenes.dfy` | exactly which events break what does not always hold, and runs in which they do |
| `signalling_effects.dfy` | which end points commands, replies, transports and timers move |
| `avdtp_requests.dfy`, `signalling_calls.dfy`, `signalling_answers.dfy`, `signalling_handled.dfy` | for every event all that it changes: the operations of a session, calls of the upper layer, replies and lost connections, commands, transports and timers |
| `signalling_actors.dfy`, `signalling_backlog.dfy`, `signalling_stalls.dfy` | on which session an event acts, and exactly which events leave its requests or idle sources waiting for nothing |
| `avctp.dfy` | the control channel and its queue |
| `avrcp.dfy`, `avrcp_attributes.dfy` | continued responses (section 6.8 of AVRCP 1.5), and element attributes through them |
| `bonding.dfy` | bonded list, device cache, pairing flags, bond states told to the HAL |
| `scan.dfy` | interleaved LE and dual discovery |
| `launcher.dfy`, `launcher_locks.dfy` | the BLE worker's attempt budget and termination, and the nested locks |
| `audio.dfy` | time arithmetic and the write loop |

## Main results

* **What a message needs to arrive** (`AvdtpWire.Fragmentation`). A message reaches an idle reassembler unchanged if and
  only if it has at most 255 bytes and is a single packet or leaves its last packet partly unused. In the exact-fill
  case the announced count is one too high and the END packet is refused (`ExactFillIsRefused`).
* **Ownership over all sessions** (`SignallingRuns.StepKeeps`, `ReferencesLive`, `StreamsAndSepsCorrespond`). Whatever the
  peer, the upper layer, transports and timers do, live streams and claimed end points correspond one to one, and the
  requests of a connected session name only its own live streams. Two related properties fail, and each is settled by
  a law for every event of every reachable state. The pending OPEN of a session comes to be of another session's stream
  exactly by a granted OPEN of a stream that the other session configured (`SignallingLaws.PendingOpenLaw`; it happens,
  `OpenedByAnother`). A session comes to name a stream that is gone exactly by a malformed reject, or any reject of an
  ABORT, for a request that names a stream, and is then lost (`DeadNameLaw`; it happens, `RejectedAbort`).
* **What every event changes** (`signalling_calls.dfy`, `signalling_answers.dfy`, `signalling_handled.dfy`). For every event of every
  reachable state it is said which streams, end points and sessions are different afterwards, flag by flag, and
  that nothing else is; `ConfigurationCommandLaw`, `CancelLaw`, `AcceptDiscoverLaw` and `LostLaw` have the most cases.
* **Requests and discovery** (`RequestsOnce`, `ReplyLaw`, `DiscoveryLaw`). Every accepted request is sent at most once and ends
  exactly once; a reply acts exactly when label and signal match, and which replies cost the connection is said; a
  discovery callback fires at most once, and exactly once, without error, when the last capability request is accepted.
* **Transport of an open stream** (`SignallingLaws.TransportLaw`, `TransportOverRuns`). A stream that is open or streaming, and that
  this side is not aborting, should have a transport. It does not always: in every reachable state an event takes it away
  if and only if it is the accept of this side's START or SUSPEND for a stream that has lost its transport meanwhile,
  or the close timer of a stream that has been opened again. So a run keeps the transport throughout if and only if it
  has no such event. It has none if every accepted START or SUSPEND finds its stream open or streaming and every
  accepted OPEN finds it configured (`OpenHasTransport`), in particular if only the peer drives the streams
  (`PeerDrivenTransport`). Runs that fail, by either event and by an OPEN of this side alone: `OpenWithoutTransport`,
  `OpenLosesTransport`, `OpenedTooLate`.
* **AVDTP queues may stall** (`SignallingStalls.StallLaw`, `StallsOverRuns`). A connected session should not have requests
  that wait while none is outstanding, because only the end of an outstanding one sends the next. In every reachable state
  an event brings this about if and only if it frees the stream of the outstanding request, which is no ABORT, while a
  request for something else waits; or the outstanding request ends, by a reply that does not cost the connection or by
  a collision with an answered command, the socket refuses the next one, and yet another one waits. A run is free of it
  if and only if it has no such event. It happens by each of them (`WaitsForNothing`), and to a session that only discovers
  (`DiscoveryStalls`).
* **Idle sources may outlive their discovery** (`StrayLaw`, `StraysOverRuns`). In every reachable state an event leaves an
  idle source behind if and only if it rejects a discovery or capability request while the current discovery is to be
  answered from the cache (it happens, `SourceLeftBehind`). In runs without such a reject, and in no others, every idle
  source finds the discovery that it is for.
* **AVCTP never stalls** (`NeverStalls`, `OnePlace`, `NoCallAfterDestruction`). Which request a response is for is said by
  its label and place alone (`ResponseLaw`). After a first hit
  the search for an unused label leaves one request out; it gives a label in use if and only if that request has the
  label at which it stops, or all 16 are taken (`LabelInUseIff`). 16 requests are enough for that (`LabelReused`).
* **AVRCP transfers** (`OnlyWholeMessages`, `InterruptedIsLost`, `FetchedIff`, `GatheredIff`, `SurviveTransfer`). In every order of sends,
  requests and aborts a receiver only ever gets whole messages, each at most once and in order; a message in several
  pieces gets through if and only if the lower layer takes full frames. The size used for cutting is the whole MTU
  (at most 512), because the two header lengths cancel out where they should add up. A payload handed over in several
  buffers is sent like one if and only if all buffers but the last fit in the packet together; otherwise some are sent
  with a length that was never set (`LengthUnset`). A request to continue is answered if and only if it names the
  PDU of what is kept (`ContinueLaw`).
* **Device lists and HAL trace** (`ListsLaw`, `EvictionLaw`, `HalLaw`, `UnpairedIff`, `BondedOverRuns`), among them which event of
  which run makes the adapter forget which device, and that a transport is bonded exactly when it has been paired ever since
  an update bonded it.
* **Scan continuity** (`ScanContinues`, `AlternatesIff`, `LeExpectedIff`).
* **Launcher** (`AttemptLaw`, `WorkerFinishes`, `NoDeadlock`). The BLE worker's remaining work has an explicit bound that every
  one of its steps lowers, whatever the BTC worker does meanwhile. An address that is deprioritised in mid-pass may be
  left behind (`LeftBehind`); which states promise that none is, is said exactly (`FinishesIff`). Every chain of threads that wait
  for one another ends at one that can move.
* **Audio pacing** (`NeverEarly`, `CounterLaw`, `WritePaced`). Over every history of turns, however they are spread over calls, no
  packet goes out before the samples read since the stream started have had their time.

## Model

| member | source | states |
|---|---|---|
| AvdtpWire.Sender.Send | bluez-5.66/android/avdtp.c:452-544 | on success exactly the planned packets are on the wire, otherwise a proper prefix of them; nothing without a channel or with an MTU below a start header |
| AvdtpWire.Sender.SendTail | bluez-5.66/android/avdtp.c:503-541 | the sending loop puts exactly the CONTINUE and END packets for the rest on the wire, or a proper prefix when the socket refuses one |
| AvdtpWire.Reassembler.ParseData | bluez-5.66/android/avdtp.c:1845-1969 | state and answer are those of the parser specification; every copy stays inside the 1024-byte buffer |
| AvdtpWire.Fragmentation | bluez-5.66/android/avdtp.c:452-544 | a message of any length is delivered unchanged if and only if it has at most 255 bytes and is a single packet or does not fill its packets exactly |
| AvdtpWire.ShortMessage | bluez-5.66/android/avdtp.c:1845-1969 | for up to 255 bytes: all packets but the last are fragments, and the last completes the message, or, on an exact fill, is an END that is refused |
| AvdtpWire.ExactFillIsRefused | bluez-5.66/android/avdtp.c:486-496 | four bytes at MTU 3 are not delivered |
| AvdtpWire.AcceptedLanguage | bluez-5.66/android/avdtp.c:1854-1968 | from idle, the accepted packet lists are exactly SINGLE, START(n) with n at most 1, or START(n) CONTINUE^(n-2) END with equal labels, within sizes and buffer; the delivered size is the payload total modulo 256 |
| AvdtpWire.SentLaw | bluez-5.66/android/avdtp.c:452-544 | one packet if two bytes of header and the message fit the MTU; otherwise a START filled to the MTU, which announces the count in one byte, full CONTINUE packets and an END, whose bodies make up the message; nothing with an MTU below 3 |
| AvdtpWire.ParseLaw | bluez-5.66/android/avdtp.c:1845-1969 | for every state and packet: exactly when it is refused, what a refused one leaves, and which bytes of the buffer, size, count and answer an accepted one gives |
| AvdtpCaps.CapsToList | bluez-5.66/android/avdtp.c:1109-1149 | the loop stays inside the given bytes and returns the parsed capabilities, the position of the last one of category 7 with at least 2 bytes, and whether one has category 8 |
| AvdtpCaps.WriteCaps | bluez-5.66/android/avdtp.c:3138-3162 | the configuration is written as the serialised capabilities into a buffer of exactly that size |
| AvdtpCaps.WrittenAt | bluez-5.66/android/avdtp.c:3138-3162 | each capability lies behind the ones before it: its category, its length in one byte, its data; nothing else is written |
| AvdtpCaps.RoundTrip | bluez-5.66/android/avdtp.c:1117-1146 | parsing undoes serialising for every list, whatever incomplete rest follows |
| AvdtpCaps.ParsedPrefix | bluez-5.66/android/avdtp.c:1117-1130 | on arbitrary bytes: serialising what was parsed is a prefix of the input, and what is left holds no complete capability |
| AvdtpCaps.ParsedMaximal | bluez-5.66/android/avdtp.c:1117-1130 | no list of capabilities that starts the input is longer than what is parsed |
| AvdtpCaps.ConfigurationSurvives | bluez-5.66/android/avdtp.c:3138-3162 | a configuration that is written and read back is unchanged |
| AvdtpObject.Avdtp.SendReq | bluez-5.66/android/avdtp.c:2348-2382 | queues behind the outstanding request by priority, or sends at once and becomes the outstanding one |
| AvdtpObject.Avdtp.SendRequest | bluez-5.66/android/avdtp.c:2384-2411 | accepts the request as the specification says and keeps the session invariant |
| AvdtpObject.Avdtp.ProcessQueues | bluez-5.66/android/avdtp.c:2955-2977 | serves the priority queue first, keeping the session invariant |
| AvdtpObject.Avdtp.CleanupQueue | bluez-5.66/android/avdtp.c:747-765 | the two search-and-remove loops leave exactly the requests of other streams, in order, and end the others |
| AvdtpObject.Clean | bluez-5.66/android/avdtp.c:752-764 | one loop: what is kept and what goes, for every list |
| AvdtpObject.Avdtp.HandleUnanswered | bluez-5.66/android/avdtp.c:767-831 | nothing during a reply, an abort only forgets its stream, anything else ends |
| AvdtpObject.Avdtp.FinalizeDiscovery | bluez-5.66/android/avdtp.c:918-937 | the current discovery is over, its idle source removed, its callback called |
| AvdtpObject.Avdtp.DiscoverResp | bluez-5.66/android/avdtp.c:2413-2466 | one capability request per usable end point, or the end of the discovery; the session invariant is kept |
| AvdtpObject.FindStreamByRseid | bluez-5.66/android/avdtp.c:628-641 | the first stream with the remote end point, None if and only if there is none |
| AvdtpPipeline.EachOnce | bluez-5.66/android/avdtp.c:2348-2382 | a request number is sent at most once and ends at most once; once sent it is not queued; of the sent ones only the one on the wire has not ended |
| AvdtpPipeline.ReleasedEach | bluez-5.66/android/avdtp.c:959-991 | freeing the session ends every accepted request exactly once |
| AvdtpPipeline.CleanupOk | bluez-5.66/android/avdtp.c:747-765 | removing a stream's requests keeps every request in exactly one place |
| AvdtpPipeline.ProcessQueueOk | bluez-5.66/android/avdtp.c:2955-2977 | serving the queues keeps every request in exactly one place |
| AvdtpDiscovery.AnswerDiscoverKeeps | bluez-5.66/android/avdtp.c:2413-2466 | an answered DISCOVER starts a batch of capability requests that is tracked until its last one ends |
| AvdtpDiscovery.AnswerGetCapLaw | bluez-5.66/android/avdtp.c:2618-2648 | an accepted capability request ends the discovery if and only if no other one is waiting, whatever else is queued, and then the callback has fired once, without error |
| AvdtpDiscovery.RejectDiscoveryLaw | bluez-5.66/android/avdtp.c:2732-2757 | a reject ends the discovery, and its callback has fired once, with an error |
| AvdtpDiscovery.StartDiscoveryLaw | bluez-5.66/android/avdtp.c:3018-3042 | a discovery is refused, without effect, while one runs; answered from the cache without a request, or started with one, which is accepted if it can be queued or sent; nothing calls back |
| AvdtpDiscovery.CallbackLaw | bluez-5.66/android/avdtp.c:918-937 | the callback fires at most once; exactly once and without error if every capability request of the batch was accepted; not before the last one |
| AvdtpRequests.SubmitLaw | bluez-5.66/android/avdtp.c:2348-2411 | a request waits at the end of its queue behind an outstanding one; otherwise it is sent with its timer, or refused without effect |
| AvdtpRequests.ServeLaw | bluez-5.66/android/avdtp.c:2955-2977 | without an outstanding request the oldest one with priority, or else the oldest one, is sent, or has ended if the socket refuses it; no other one is tried |
| AvdtpRequests.CleanupLaw | bluez-5.66/android/avdtp.c:736-765 | the requests of the stream leave both queues and have ended; the others stay in their order |
| AvdtpRequests.UnansweredLaw | bluez-5.66/android/avdtp.c:767-831 | the outstanding request ends, unless its reply is being processed; an ABORT only forgets its stream |
| AvdtpRequests.FinalizeLaw | bluez-5.66/android/avdtp.c:918-937 | the callback, if there is one, is called, and the idle source is gone |
| AvdtpRequests.IdleLaw | bluez-5.66/android/avdtp.c:3007-3016 | the idle source ends the discovery without error |
| AvdtpRequests.DiscoverLaw | bluez-5.66/android/avdtp.c:3018-3042 | refused during a discovery, answered from the cache, or started with a DISCOVER; a refused DISCOVER leaves a discovery without callback |
| AvdtpRequests.DiscoverAnswerLaw | bluez-5.66/android/avdtp.c:2413-2466 | each offered end point becomes known, once, and is asked for its capabilities with priority, by the request that the version of the session has for it; none offered ends the discovery |
| AvdtpRequests.CapabilityAnswerLaw | bluez-5.66/android/avdtp.c:2618-2648 | the discovery ends unless the next waiting request is for capabilities |
| AvdtpRequests.DiscoveryRejectLaw | bluez-5.66/android/avdtp.c:2732-2757 | the discovery ends with an error, and its idle source stays |
| SignallingSafety.SetIdleKeeps | bluez-5.66/android/avdtp.c:871-915 | freeing a stream keeps all links and forgets every reference of its session to it |
| SignallingSafety.ClaimKeeps | bluez-5.66/android/avdtp.c:1252-1279 | a new stream and its unclaimed end point claim each other |
| SignallingEvents.SetStateKeeps | bluez-5.66/android/avdtp.c:833-916 | a change to any state but IDLE keeps links and references, for any session it is called with |
| SignallingCommands.CancelKeeps | bluez-5.66/android/avdtp.c:2237-2337 | cancelling a request, with its fall-through to an abort or to the loss of the session, keeps the invariant |
| SignallingCommands.AbortKeeps | bluez-5.66/android/avdtp.c:3311-3335 | aborting a stream, by cancelling its request or by a request of its own, keeps the invariant |
| SignallingCommands.SetConfKeeps | bluez-5.66/android/avdtp.c:1281-1364 | SET_CONFIGURATION keeps the invariant on every path, handler callback and error paths included |
| SignallingCommands.OpenKeeps | bluez-5.66/android/avdtp.c:1487-1535 | OPEN keeps the invariant, whichever session the stream belongs to |
| SignallingCommands.StartKeeps | bluez-5.66/android/avdtp.c:1537-1595 | START keeps the invariant, also when it fails part of the way |
| SignallingCommands.SuspendKeeps | bluez-5.66/android/avdtp.c:1648-1703 | SUSPEND keeps the invariant, also when it fails part of the way |
| SignallingCommands.CloseKeeps | bluez-5.66/android/avdtp.c:1597-1646 | CLOSE keeps the invariant, with and without a reply |
| SignallingCommands.AbortCmdKeeps | bluez-5.66/android/avdtp.c:1705-1733 | ABORT keeps the invariant, with and without a reply |
| SignallingCommands.ReceiveKeeps | bluez-5.66/android/avdtp.c:2013-2033 | a command, and what follows when it fails or collides with the outstanding request, keeps the invariant |
| SignallingCommands.AnswerAccept | bluez-5.66/android/avdtp.c:2618-2687 | every accept response keeps the invariant |
| SignallingCommands.AnswerReject | bluez-5.66/android/avdtp.c:2732-2848 | every reject response keeps the invariant |
| SignallingCommands.ReplyKeeps | bluez-5.66/android/avdtp.c:2035-2093 | a reply of any kind keeps the invariant |
| SignallingRuns.ConfigureCallKeeps | bluez-5.66/android/avdtp.c:3111-3181 | configuring an unclaimed end point keeps the invariant, whether or not the request is sent |
| SignallingRuns.StartTimeoutKeeps | bluez-5.66/android/avdtp.c:3200-3213 | the start timer keeps the invariant, and never runs while the peer drives the streams |
| SignallingRuns.CloseCallKeeps | bluez-5.66/android/avdtp.c:3262-3292 | closing, or aborting instead, keeps the invariant |
| SignallingRuns.StepKeeps | bluez-5.66/android/avdtp.c:1971-2100 | every event keeps the links, and what is asked in addition as far as the event allows it: requests, pending OPEN, transports |
| SignallingRuns.ReferencesLive | bluez-5.66/android/avdtp.c:747-765 | in every reachable state the requests of a connected session name its own live streams |
| SignallingRuns.StreamsAndSepsCorrespond | bluez-5.66/android/avdtp.c:657-685 | in every reachable state live streams and claimed end points correspond one to one, and unclaimed ones are idle |
| SignallingRuns.RequestsOnce | bluez-5.66/android/avdtp.c:2348-2382 | in every reachable state an accepted request is in exactly one place, was sent at most once, and has ended at most once |
| SignallingRuns.FreedOnce | bluez-5.66/android/avdtp.c:959-991 | freeing a session in any reachable state ends each of its requests exactly once |
| SignallingRuns.DiscoveryLaw | bluez-5.66/android/avdtp.c:918-937 | in every reachable state a discovery has fired at most once, and exactly once without error if its capability requests were all accepted |
| SignallingRuns.ReplyLaw | bluez-5.66/android/avdtp.c:2035-2093 | in every reachable state a reply changes nothing unless a request is outstanding, its label is that of the reply and its signal too; if so, a malformed capability response, a malformed reject and a rejected ABORT cost the connection, and with any other the request ends with the fate the reply stands for |
| SignallingLaws.TransportLaw | bluez-5.66/android/avdtp.c:2545-2587 | in every reachable state, an event takes the transport from an open stream if and only if it is the accept of a START or SUSPEND that finds the stream without one, or the close timer of an open stream |
| SignallingLaws.TransportOverRuns | bluez-5.66/android/avdtp.c:573-584 | a run keeps the transport of open streams in all its states if and only if none of its events is one of these |
| SignallingLaws.LocalReply | bluez-5.66/android/avdtp.c:2545-2587 | after an accepted START or SUSPEND of this side the stream is open or streaming, with the transport it had or had not |
| SignallingLaws.OpenHasTransport | bluez-5.66/android/avdtp.c:708-734 | if accepted OPENs find their stream configured and accepted STARTs and SUSPENDs find it open, an open stream has a transport, and a close timer only runs for one that is closing or aborting |
| SignallingLaws.PeerDrivenTransport | bluez-5.66/android/avdtp.c:708-734 | so it is in every run in which only the peer drives the streams |
| SignallingScenes.OpenWithoutTransport | bluez-5.66/android/avdtp.c:2575-2587 | this side suspends, the peer closes, the close timer runs out, and the accept opens the stream without a transport |
| SignallingScenes.OpenLosesTransport | bluez-5.66/android/avdtp.c:573-584 | the same with the accept before the close timer, which then cuts the open stream |
| SignallingScenes.OpenedTooLate | bluez-5.66/android/avdtp.c:2531-2543 | an accepted OPEN of a stream that is aborting is enough, without START, SUSPEND or SET_CONFIGURATION |
| SignallingLaws.DeadNameLaw | bluez-5.66/android/avdtp.c:2064-2097 | in every reachable state, after an event a session that was connected names a stream that is gone if and only if the event is a malformed reject, or any reject of an ABORT, for a request with a stream; the session is then lost |
| SignallingScenes.RejectedAbort | bluez-5.66/android/avdtp.c:2064-2097 | a reachable state in which a rejected ABORT does that |
| SignallingLaws.PendingOpenLaw | bluez-5.66/android/avdtp.c:1487-1535 | in every reachable state, after an event the pending OPEN of a session is no longer of its own streams if and only if the event is a granted and answered OPEN of a stream that another session configured |
| SignallingLaws.PendingOpenOverRuns | bluez-5.66/android/avdtp.c:1487-1535 | in runs without such an event the pending OPEN of a session is of one of its streams |
| SignallingLaws.ForeignOpen | bluez-5.66/android/avdtp.c:1520-1532 | the pending OPEN left by an OPEN command names a stream of the session if and only if the stream is its own |
| SignallingScenes.OpenedByAnother | bluez-5.66/android/avdtp.c:1520-1532 | a reachable state with two sessions in which one opens the stream of the other |
| SignallingActors.StepKept | bluez-5.66/android/avdtp.c:1971-2100 | an event acts on one session at most: every other session is exactly as before |
| SignallingBacklog.ReceiveActs | bluez-5.66/android/avdtp.c:2013-2033 | a command leaves requests waiting for nothing if and only if it is answered, collides with the outstanding request, the next request cannot be sent and another one waits; it never leaves an idle source behind |
| SignallingBacklog.AnswerActs | bluez-5.66/android/avdtp.c:2035-2093 | a reply does so if and only if it does not cost the connection, the next request cannot be sent, and with what the answer adds or takes away at least two wait; it leaves an idle source behind if and only if it is a reject of a discovery or capability request during a discovery from the cache |
| SignallingStalls.StallLaw | bluez-5.66/android/avdtp.c:2955-2977 | in every reachable state, after an event requests of a session wait while none is outstanding if and only if the event frees the stream of the outstanding request, no ABORT, while a request for something else waits, or the outstanding request ends by a reply or collision, the next one cannot be sent, and another one waits |
| SignallingStalls.StallsOverRuns | bluez-5.66/android/avdtp.c:2955-2977 | a run never leaves requests waiting for nothing if and only if it has none of these events |
| SignallingScenes.WaitsForNothing | bluez-5.66/android/avdtp.c:767-831 | a reachable state from which a hang-up, the removal of the end point, a reply and a collision each do that |
| SignallingScenes.DiscoveryStalls | bluez-5.66/android/avdtp.c:2413-2466 | so does an accepted DISCOVER that lists three end points, when the first capability request cannot be sent |
| SignallingStalls.StrayLaw | bluez-5.66/android/avdtp.c:2739-2757 | in every reachable state, after an event a session has an idle source that is not for its current discovery, and had none, if and only if the event rejects a discovery or capability request while the current discovery is to be answered from the cache; no discovery is left then |
| SignallingStalls.StraysOverRuns | bluez-5.66/android/avdtp.c:3007-3016 | in all states of a run every idle source finds the discovery it was scheduled for, if and only if the run has no such event |
| SignallingScenes.SourceLeftBehind | bluez-5.66/android/avdtp.c:3018-3033 | a reachable state in which that happens: a failed discovery has left a capability request, whose reject ends the next discovery |
| SignallingEffects.ConnectLaw | bluez-5.66/android/avdtp.c:708-734 | a transport that is waited for, however late, leaves its stream OPEN with a transport; any other is ignored |
| SignallingEffects.HangUpLaw | bluez-5.66/android/avdtp.c:687-706 | a transport that hangs up frees its stream, which its session forgets, or only disconnects it while this side aborts it |
| SignallingEffects.OpenTimeoutLaw | bluez-5.66/android/avdtp.c:586-599 | the open timer drops the pending OPEN; unless the stream is in ABORTING it cancels an outstanding request for the stream, and otherwise aborts the stream, exactly if that request can be queued or sent |
| SignallingEffects.CloseTimeoutLaw | bluez-5.66/android/avdtp.c:573-584 | the close timer closes the transport of its stream and changes nothing else |
| SignallingEffects.UnregisterLaw | bluez-5.66/android/avdtp.c:3403-3419 | removing an end point frees the stream that claims it |
| SignallingEffects.LoseLaw | bluez-5.66/android/avdtp.c:1002-1017 | losing a connection releases every stream of the session and leaves other sessions, their streams and end points as they are |
| SignallingEffects.StartAndSuspendLaw | bluez-5.66/android/avdtp.c:1537-1595 | START and SUSPEND move exactly the longest acceptable part at the front of their list, and it stays moved when the command is rejected |
| SignallingEffects.CloseAbortOpenLaw | bluez-5.66/android/avdtp.c:1597-1733 | which end point CLOSE, ABORT and OPEN move, and that no other end point changes |
| SignallingEffects.AcceptLaw | bluez-5.66/android/avdtp.c:2507-2616 | what each accepted request of this side does to its stream and end point, and that the others leave all streams alone |
| SignallingCalls.OpenCallLaw | bluez-5.66/android/avdtp.c:3183-3198 | OPEN is asked for a stream of the session that is idle or configured and not being aborted; otherwise nothing changes |
| SignallingCalls.StartCallLaw | bluez-5.66/android/avdtp.c:3215-3260 | START is asked for once, for an open stream that is not closing, and the stream is starting if it could be; a stream that the peer opened first waits for the peer |
| SignallingCalls.StartTimerLaw | bluez-5.66/android/avdtp.c:3200-3213 | the stream waits for the peer no longer, and START is asked for as for any other |
| SignallingCalls.SuspendCallLaw | bluez-5.66/android/avdtp.c:3294-3309 | SUSPEND is asked for unless the stream is not streaming yet, or closing |
| SignallingCalls.CloseCallLaw | bluez-5.66/android/avdtp.c:3262-3292 | CLOSE is asked for once, and the stream is closing if it could be; a stream that is not open, or whose request is outstanding when it is to close at once, is aborted instead |
| SignallingCalls.AbortCallLaw | bluez-5.66/android/avdtp.c:3311-3335 | an outstanding request of the stream is cancelled; otherwise ABORT is asked for with priority, and the stream is being aborted if it could be; a stream in ABORTING is left alone |
| SignallingCalls.DelayReportCallLaw | bluez-5.66/android/avdtp.c:3337-3360 | DELAY_REPORT is asked for with priority, for a configured or streaming stream that reports delays in a session of version 1.3 |
| SignallingCalls.GetConfigurationCallLaw | bluez-5.66/android/avdtp.c:3088-3097 | GET_CONFIGURATION is asked for |
| SignallingCalls.SetConfigurationCallLaw | bluez-5.66/android/avdtp.c:3111-3181 | SET_CONFIGURATION is asked for in the name of a new stream, which claims the end point if it could be; if not, nothing but the label changes |
| SignallingCalls.DiscoverCallLaw | bluez-5.66/android/avdtp.c:3018-3042 | a discovery takes a label exactly if it sends its DISCOVER |
| SignallingCalls.CancelLaw | bluez-5.66/android/avdtp.c:2229-2346 | in every reachable state a request that times out has ended; for SET_CONFIGURATION, DISCOVER, GET_CAPABILITIES and ABORT, without a stream, or if no ABORT can be sent, the session is lost; otherwise an ABORT is outstanding for the first stream of the end point, which is neither starting nor closing if the request was for that |
| SignallingAnswers.AcceptMovesLaw | bluez-5.66/android/avdtp.c:2523-2687 | in every reachable state, all that an accept of OPEN, START, SUSPEND, CLOSE, GET_CONFIGURATION, RECONFIGURE, SECURITY_CONTROL and DELAY_REPORT changes: the state of the end point, the flags of the stream, the end of the request, and the next one |
| SignallingAnswers.AcceptConfigurationLaw | bluez-5.66/android/avdtp.c:2507-2521 | an accept of SET_CONFIGURATION configures the stream, and a receiving one that reports delays does so, with priority |
| SignallingAnswers.AcceptAbortLaw | bluez-5.66/android/avdtp.c:2589-2603 | an accept of ABORT frees the stream and its end point, and its session forgets it |
| SignallingAnswers.ForgetLaw | bluez-5.66/android/avdtp.c:871-915 | what a session forgets with a stream: the pending OPEN, the outstanding request, the waiting ones and the stream, and nothing else |
| SignallingAnswers.AcceptDiscoverLaw | bluez-5.66/android/avdtp.c:2413-2466 | the capabilities of exactly those listed end points are asked for, in their order, that are free, known, those of a stream of the session, or listed as free before |
| SignallingAnswers.AcceptCapabilitiesLaw | bluez-5.66/android/avdtp.c:2618-2648 | an accept of a capability request ends it, and the discovery unless the next waiting request is one |
| SignallingAnswers.RejectLaw | bluez-5.66/android/avdtp.c:2732-2848 | a reject ends the request and, of START, that the stream is starting, of CLOSE that it is closing; a general reject changes no stream; a rejected discovery or capability request ends the discovery |
| SignallingAnswers.LostLaw | bluez-5.66/android/avdtp.c:939-1017 | all that a link that goes down changes: the streams of the session, their end points, its requests for them, its discovery, which ends with an error |
| SignallingAnswers.FatalReplyLaw | bluez-5.66/android/avdtp.c:2618-2757 | the same for a reject of an ABORT, and for a reply that is too short |
| SignallingAnswers.FreedLaw | bluez-5.66/android/avdtp.c:687-706 | in every reachable state a hang-up, unless the stream is being aborted, and the removal of its end point free the stream, which its session forgets, and change nothing else |
| SignallingHandled.OpenCommandLaw | bluez-5.66/android/avdtp.c:1487-1535 | all that OPEN changes: if granted for a configured end point and answered, its stream waits for its transport, with a timer, as that of this session |
| SignallingHandled.CloseCommandLaw | bluez-5.66/android/avdtp.c:1597-1646 | all that CLOSE changes: if granted for an open or streaming end point that is closing, and the close timer runs if the answer was sent |
| SignallingHandled.AbortCommandLaw | bluez-5.66/android/avdtp.c:1705-1733 | all that ABORT changes: a claimed end point is aborting if the answer was sent, and the session lost if not; any other is ignored |
| SignallingHandled.StartCommandLaw | bluez-5.66/android/avdtp.c:1537-1595 | all that START changes: state and flags of the end points that are served, and that the one refused by the upper layer is left starting |
| SignallingHandled.SuspendCommandLaw | bluez-5.66/android/avdtp.c:1648-1703 | all that SUSPEND changes: state and flags of the end points that are served |
| SignallingHandled.ConfigurationCommandLaw | bluez-5.66/android/avdtp.c:1252-1364 | all that SET_CONFIGURATION changes, for every answer of the handler, sent or not: which make a new configured stream, which only note version 1.3, which cost the connection |
| SignallingHandled.OtherCommandLaw | bluez-5.66/android/avdtp.c:1793-1841 | any other command changes nothing; one that cannot be answered costs the connection |
| SignallingHandled.TransportUpLaw | bluez-5.66/android/avdtp.c:708-734 | an awaited transport opens its stream and cancels its timer; any other changes nothing |
| SignallingHandled.OpenTimerLaw | bluez-5.66/android/avdtp.c:586-599 | the open timer ends the wait for the transport, and aborts the stream as a call would unless it is in ABORTING |
| SignallingHandled.CloseTimerLaw | bluez-5.66/android/avdtp.c:573-584 | the close timer disconnects the stream and changes nothing else |
| Avctp.NeverStalls | bluez-5.66/android/avctp.c:670-696 | after every run an idle channel with a queue is scheduled, and requests are attempted in the order of submission |
| Avctp.OnePlace | bluez-5.66/android/avctp.c:457-494 | after every run a request is queued, in flight, processed or destroyed, exactly one of these, and destroyed once when the channel is |
| Avctp.NoCallAfterDestruction | bluez-5.66/android/avctp.c:633-650 | after every run no callback has been called after its request was destroyed, timeouts included |
| Avctp.ResponseLaw | bluez-5.66/android/avctp.c:739-786 | in every reachable state: a response with the label of the request in flight is for that one, which is processed and the queue scheduled; otherwise it is for the processed request of least index with that label; that one is called, and destroyed unless it is kept; without any such request nothing changes |
| Avctp.LabelInUseIff | bluez-5.66/android/avctp.c:1123-1162 | the search for an unused label gives one in use if and only if the next label is in use, and the first following label that the later requests do not use, if any, is that of the request left out |
| Avctp.LabelLaw | bluez-5.66/android/avctp.c:1123-1203 | a submitted request is queued with its label and the idle callback scheduled, nothing else changes; its label is in use exactly when the search misses it |
| Avctp.LabelIs | bluez-5.66/android/avctp.c:1123-1162 | the label is the next one if no processed request uses it, and otherwise the first following one that the later requests, but for the first of them, do not use |
| Avctp.TimeoutLaw | bluez-5.66/android/avctp.c:633-650 | in every reachable state a request that times out is called, while in flight, and then destroyed, and the idle callback is scheduled |
| Avctp.IdleLaw | bluez-5.66/android/avctp.c:670-696 | the idle callback destroys the requests that cannot be sent, without a call, and puts the first one that can in flight; it only ends while one is in flight |
| Avctp.CloseLaw | bluez-5.66/android/avctp.c:470-494 | every request is destroyed without a call: the one in flight, the queued and the processed ones in order |
| Avctp.LabelReused | bluez-5.66/android/avctp.c:1123-1162 | a run from start-up after which the next request gets a label in use |
| Avctp.AvctpChannel.PendingCreate | bluez-5.66/android/avctp.c:1123-1162 | the loop over the processed requests terminates with a label below 16, as specified |
| Avctp.AvctpChannel.SendReq | bluez-5.66/android/avctp.c:1164-1203 | the request is queued with its label and the idle callback scheduled; the invariant is kept |
| Avctp.AvctpChannel.ProcessQueues | bluez-5.66/android/avctp.c:670-696 | the loop destroys what cannot be sent and puts the first request that can in flight; the invariant is kept |
| Avctp.AvctpChannel.ReqTimeout | bluez-5.66/android/avctp.c:633-650 | the request in flight is called and destroyed and the queue scheduled; the invariant is kept |
| Avctp.AvctpChannel.ControlResponse | bluez-5.66/android/avctp.c:739-786 | the request in flight becomes processed on a match, and the first processed request with the label is called; the invariant is kept |
| Avctp.AvctpChannel.ChannelDestroy | bluez-5.66/android/avctp.c:470-494 | every request is destroyed, none is called; the invariant is kept |
| Avrcp.AvrcpSession.SendBuffers | bluez-5.66/android/avrcp-lib.c:1080-1142 | the loop over the buffers hands down the specified frame, and keeps exactly the bytes of all buffers that do not fit |
| Avrcp.AvrcpSession.ContinuingNew | bluez-5.66/android/avrcp-lib.c:1039-1078 | the copying loop keeps all that is left of the buffers |
| Avrcp.GatheredIff | bluez-5.66/android/avrcp-lib.c:1107-1134 | in every session: buffers are sent as the same bytes in one buffer if and only if all but the last fit together; otherwise a buffer that is handed down has no length |
| Avrcp.FrameLaw | bluez-5.66/android/avrcp-lib.c:1080-1142 | in every case the header is that of the payload in one buffer; the buffers that fit have their full length, the first that does not is cut, the others have none |
| Avrcp.LengthUnset | bluez-5.66/android/avrcp-lib.c:1107-1134 | the second of three buffers is cut, and the third has no length |
| Avrcp.AvrcpSession.SendPieces | bluez-5.66/android/avrcp-lib.c:1160-1166 | with one buffer: the piece that fits with its type, and what is kept for later |
| Avrcp.AvrcpSession.OnRequestContinuing | bluez-5.66/android/avrcp-lib.c:1144-1174 | the next piece, if and only if one parameter names the message that is being continued |
| Avrcp.AvrcpSession.OnAbortContinuing | bluez-5.66/android/avrcp-lib.c:1176-1193 | what is kept is dropped and answered with an empty message |
| Avrcp.ContinueLaw | bluez-5.66/android/avrcp-lib.c:1144-1174 | in every session: refused without effect unless there is one parameter and it names the PDU of what is kept; otherwise the answer is as much of it as a packet takes, the rest stays kept, and the piece that leaves none is the END |
| Avrcp.AbortLaw | bluez-5.66/android/avrcp-lib.c:1176-1193 | in every session: refused without effect unless there is one parameter and something is kept; otherwise that is dropped and the answer is empty |
| Avrcp.TransferLaw | bluez-5.66/android/avrcp-lib.c:1080-1174 | what is sent and then answered to requests until one is refused makes up the payload, in as few pieces as packets of this size allow, typed SINGLE or START CONTINUING* END; nothing is kept after the last |
| Avrcp.KeptRest | bluez-5.66/android/avrcp-lib.c:1039-1078 | after each request exactly the bytes not yet sent are kept, and nothing exactly when all are sent |
| Avrcp.OnlyWholeMessages | bluez-5.66/android/avrcp-lib.c:1090-1098 | over all runs a receiver gets only whole messages, all their pieces under the PDU they were sent with, each at most once, in the order of sending |
| Avrcp.InterruptedIsLost | bluez-5.66/android/avrcp-lib.c:1090-1098 | a message that is followed by another before the receiver has it is never delivered |
| Avrcp.FetchedIff | bluez-5.66/android/avrcp-lib.c:563-570 | from every state, a message that is sent and fetched is delivered if and only if the MTU is at least 518 or 13 plus its length fits it |
| AvrcpAttributes.WriteElementText | bluez-5.66/android/avrcp.c:160-182 | the bytes of one attribute are written at the position, and nothing before it changes |
| AvrcpAttributes.WriteElementAttrs | bluez-5.66/android/avrcp.c:184-203 | the buffer holds the printed attributes |
| AvrcpAttributes.ParseAttributeList | bluez-5.66/android/avrcp-lib.c:2416-2455 | the loop returns what the parser specification says, errors included |
| AvrcpAttributes.PrintedAt | bluez-5.66/android/avrcp.c:160-203 | the printed bytes: the count, and for each attribute its number in four bytes, the character set 106 in two, the length in two, and the text |
| AvrcpAttributes.ParseLaw | bluez-5.66/android/avrcp-lib.c:2416-2455 | on arbitrary bytes: refused with more than 7 attributes or an item that announces more than is left; otherwise every item is read, up to the given number, until fewer than 8 bytes are left |
| AvrcpAttributes.Survive | bluez-5.66/android/avrcp-lib.c:2463-2480 | up to 7 attributes are parsed back to their entries; to exactly what was given if and only if every text is nonempty and NUL-free; more than 7 are refused |
| AvrcpAttributes.SurviveTransfer | bluez-5.66/android/avrcp-lib.c:2416-2480 | through a transfer in pieces, whatever the session did before: the same, if the MTU is at least 518 or 13 plus the length fits it; otherwise nothing arrives |
| Bonding.Devices.Cache | bluez-5.66/android/bluetooth.c:405-429 | moves, adds, or evicts the last, as specified |
| Bonding.Devices.Get | bluez-5.66/android/bluetooth.c:461-474 | finds the device or caches a new one; the invariant is kept |
| Bonding.Devices.UpdateBredrState | bluez-5.66/android/bluetooth.c:757-792 | the BR/EDR flags and the lists change as the update of that transport says |
| Bonding.Devices.UpdateLeState | bluez-5.66/android/bluetooth.c:794-835 | the LE flags and the lists change as the update of that transport says |
| Bonding.Devices.UpdateDeviceState | bluez-5.66/android/bluetooth.c:881-897 | the state changes and the HAL is told; the invariant is kept |
| Bonding.ListsLaw | bluez-5.66/android/bluetooth.c:757-835 | after every run a known device is in exactly one list, once, the bonded one if and only if one of its paired flags is set; bonded implies paired per transport; the cache is within 300 or what was loaded, most recently touched first |
| Bonding.EvictionLaw | bluez-5.66/android/bluetooth.c:405-429 | in every state of every run: an event makes the adapter forget a device if and only if it brings one into the cache that is not there, the cache is full, and the forgotten one is last; that one is unpaired and least recently touched |
| Bonding.HalLaw | bluez-5.66/android/bluetooth.c:852-897 | the bond states told for a device are a walk that never steps directly between NONE and BONDED and ends in its state |
| Bonding.UnpairedIff | bluez-5.66/android/bluetooth.c:764-770 | an update unpairs a transport if and only if it is for that transport, says neither pairing nor paired, and the device is not pairing |
| Bonding.FlagsLaw | bluez-5.66/android/bluetooth.c:757-835 | every flag after an update: those of the other transport stay; so do these if the update is ignored; if not, the transport is paired as the update says, and bonded if and only if it is paired and the update says bonded or it was |
| Bonding.BondedStep | bluez-5.66/android/bluetooth.c:785-788 | after an event a device is bonded on a transport if and only if it is paired there, and was bonded already or has just been bonded |
| Bonding.BondedOverRuns | bluez-5.66/android/bluetooth.c:785-831 | after every run a transport is bonded if and only if it has been paired ever since some update bonded it, or since start-up, when it was bonded |
| Bonding.MovesLaw | bluez-5.66/android/bluetooth.c:757-835 | in every state of every run: an update that first pairs a device moves it to the front of the bonded list, one that leaves it unpaired to the front of the cache, and others leave the lists alone |
| Bonding.SeenLaw | bluez-5.66/android/bluetooth.c:405-474 | in every state of every run: a device asked for and not known, or found and not paired, is first in the cache afterwards; otherwise nothing changes |
| Bonding.HalStepLaw | bluez-5.66/android/bluetooth.c:852-897 | the HAL is told nothing if the state stays, BONDING and the state between NONE and BONDED, and the state alone otherwise |
| Scan.Discovery.MgmtDiscovering | bluez-5.66/android/bluetooth.c:1461-1501 | begin and end of a scan, with the scan that follows; the invariant is kept |
| Scan.Discovery.LeDiscoveryStop | bluez-5.66/android/bluetooth.c:4153-4174 | LE scanning is no longer wanted, and the running LE scan is stopped; the invariant is kept |
| Scan.Discovery.LeDiscoveryStart | bluez-5.66/android/bluetooth.c:4176-4198 | LE scanning is wanted, now or after the running scan; the invariant is kept |
| Scan.Discovery.OnStartCommand | bluez-5.66/android/bluetooth.c:5153-5191 | a dual scan starts, or follows the LE scan that is stopped for it; the invariant is kept |
| Scan.Discovery.OnCancelCommand | bluez-5.66/android/bluetooth.c:5193-5238 | the HAL's scan is stopped, or the command refused; the invariant is kept |
| Scan.ScanContinues | bluez-5.66/android/bluetooth.c:1484-1500 | in all reachable states a dual scan is only expected during an LE scan, and a scan that ends while LE scanning is wanted is followed by a request for one that includes LE |
| Scan.CommandsTakeEffect | bluez-5.66/android/bluetooth.c:5153-5238 | a start command during an LE scan is followed by a scan over all transports, a cancel command by nothing but an expected LE scan |
| Scan.AlternatesIff | bluez-5.66/android/bluetooth.c:1438-1459 | with constant settings STARTED and STOPPED alternate, STARTED first, if and only if some transport is supported |
| Scan.DiscoveringLaw | bluez-5.66/android/bluetooth.c:1438-1501 | all that the beginning and the end of a scan change: what the HAL hears, what is expected next, the scan that is asked for, the callback |
| Scan.LeStartLaw | bluez-5.66/android/bluetooth.c:4176-4198 | an LE scan is asked for, or expected after the running one; exactly when the call fails, and that LE scanning is wanted even then |
| Scan.LeStopLaw | bluez-5.66/android/bluetooth.c:4153-4174 | a scan over LE alone is stopped and its end awaited by the callback; otherwise the callback is called at once |
| Scan.StartCommandLaw | bluez-5.66/android/bluetooth.c:5153-5191 | exactly when a start command fails; otherwise which scan it asks for or stops, and what is expected then |
| Scan.CancelCommandLaw | bluez-5.66/android/bluetooth.c:5193-5238 | exactly when a cancel command fails or is refused as busy; otherwise which scan it stops, and what is expected then |
| Scan.SettingsLast | bluez-5.66/android/bluetooth.c:1401-1412 | after every run the adapter is powered, and supports the transports, as the last change of settings says |
| Scan.LeExpectedIff | bluez-5.66/android/bluetooth.c:1480-1497 | over all runs, at the beginning and the end of a scan one over LE is expected next if and only if the last call of the GATT layer that found the adapter on was to start |
| Launcher.AttemptLaw | Scripts/central_app_launcher2.py:262-299 | over all runs, since its last [NEW] line an address was tried as often as attempts are counted for it, and once more for every stronger signal that gave one back; at most 3 attempts, or 4 if the BTC worker has the address too |
| Launcher.FourAttempts | Scripts/central_app_launcher2.py:396-411 | the bound of 4 is reached when both transports report an address and both workers check it before either counts |
| Launcher.NothingLost | Scripts/central_app_launcher2.py:262-409 | an address leaves the active and the deprioritised set only by its [DEL] line or by being skipped, enters them only by its [NEW] line, and moves between them by a vendor line or when everything was skipped |
| Launcher.LineLaw | Scripts/central_app_launcher2.py:262-345 | all that each log line changes: [NEW] gives an address all its attempts back, a stronger signal one if more than one was made, manufacturer data deprioritises an active address, [DEL] ends that it is active |
| Launcher.WorkerLaw | Scripts/central_app_launcher2.py:388-411 | the worker skips an address exactly if it is ours or has had three attempts; it is then no longer active, and if the whole snapshot was skipped the oldest deprioritised one becomes active |
| Launcher.TryLaw | Scripts/central_app_launcher2.py:374-411 | when a pass begins and over which addresses, what a try counts, and which addresses the BTC worker takes up |
| Launcher.WorkBound | Scripts/central_app_launcher2.py:374-411 | without further log lines the BLE worker takes at most the given number of steps, from any state and whatever the BTC worker does |
| Launcher.WaitsIff | Scripts/central_app_launcher2.py:498-499 | the worker waits exactly when its snapshot is used up and no address is active |
| Launcher.WorkerFinishes | Scripts/central_app_launcher2.py:351-411 | once the log is quiet, from any state: when the worker waits both sets are empty if and only if at the end of the pass that was under way an address was active or none deprioritised, and in any case if no log line has come since that pass began |
| Launcher.FinishesIff | Scripts/central_app_launcher2.py:374-411 | while the BTC worker rests as well, from any state: both sets end empty if and only if, in that state, none is deprioritised, an active address will not be skipped in this pass, or the whole pass will be skipped |
| Launcher.LeftBehind | Scripts/central_app_launcher2.py:396-409 | a run that ends with an address deprioritised: its vendor line comes while the worker has it in its snapshot |
| Launcher.BleWorker.WorkUntilIdle | Scripts/central_app_launcher2.py:374-499 | the passes of the worker end with both sets empty |
| LauncherLocks.BlocksRanked | Scripts/central_app_launcher2.py:262-371 | every block of code of every thread takes nested locks in strictly increasing rank, releases what it took, and joins holding none |
| LauncherLocks.Discipline | Scripts/central_app_launcher2.py:157-186 | in every reachable state no thread is about to take a lock it holds or one of lower rank, a joining thread holds none, and no lock has two holders |
| LauncherLocks.NoDeadlock | Scripts/central_app_launcher2.py:417-492 | in every reachable state, from every thread inside a block a chain of at most five threads, each waiting for the next, leads to a thread inside a block, or a running tool, that can move on |
| LauncherLocks.GoLaw | Scripts/central_app_launcher2.py:157-186 | a thread takes its next step exactly if nobody holds the lock that it is about to take, and the thread that it joins has ended; what the step changes |
| Audio.TimeRoundTrip | bluez-5.66/android/hal-audio.c:47-78 | adding a time to a normalised one is normalised, and the difference gives the time back |
| Audio.DiffUsLaw | bluez-5.66/android/hal-audio.c:59-78 | the difference is the one in nanoseconds rounded down, as an unsigned 64-bit number |
| Audio.WritePaced | bluez-5.66/android/hal-audio.c:648-763 | every packet of a call is written no earlier than the sample counter says, and the clock reading before was at most 100 ms late |
| Audio.NeverEarly | bluez-5.66/android/hal-audio.c:692-716 | over all histories of turns: while fewer than 2^32 samples have been read since the stream started, no packet is written before its start plus the time those samples take |
| Audio.TurnLaw | bluez-5.66/android/hal-audio.c:648-763 | exactly when a turn writes a packet, and when it fails: it waits for its write point when ahead, drops the packet while out of sync, and skips it if the socket does not become writable |
| Audio.CounterLaw | bluez-5.66/android/hal-audio.c:757-758 | over all histories the counter is the number of samples read since the output was opened or resumed, in 32 bits |
| Audio.StartLaw | bluez-5.66/android/hal-audio.c:684-690 | a stream starts at the clock reading of the turn that finds the counter at 0 |
| Audio.CallPlays | bluez-5.66/android/hal-audio.c:648-763 | a call is exactly its turns one after the other, each of which reads something; all but the last succeed |
| Audio.A2dpOut.WriteData | bluez-5.66/android/hal-audio.c:648-763 | terminates, and does what the loop specification says |

## Left out

- SignallingRuns.ReferencesLive: is about requests of connected sessions; `SignallingLaws.PendingOpenLaw` and `SignallingLaws.DeadNameLaw` say exactly when the pending OPEN and lost sessions are different.
- SignallingLaws.OpenHasTransport: has a condition on replies, because the property fails without it; `SignallingLaws.TransportLaw` says exactly when.
- Avctp.AvctpChannel.PendingCreate: does not state that the label is unused, because it may be in use; `Avctp.LabelInUseIff` says exactly when, and `Avctp.LabelIs` which label it is.
- Launcher.AttemptLaw: counts an attempt in one step, because each dictionary operation is one step of the model.
- Audio.NeverEarly: holds while fewer than 2^32 samples have been read since the stream started, because the counter is 32 bits wide; `Audio.WritePaced` holds for the counter itself throughout.
- AVDTP: handlers of the upper layer do not call back into a session while it runs, and the answer to a SET_CONFIGURATION command comes before its handler returns.
- AVDTP: a session is not used again after its connection is lost, except to be freed. `avdtp_unref` of a session with live streams and `avdtp_shutdown` are not modelled.
- AVDTP: an idle source that fires when there is no discovery is not modelled, because the program dereferences a null pointer then. `SignallingStalls.StrayLaw` says exactly which event leaves such a source, and `SignallingScenes.SourceLeftBehind` shows that there is one.
- AVDTP: timers of a stream do not fire after it is freed. A repeated OPEN forgets the timer of the first one, which the model keeps and lets fire while the stream lives.
- AVDTP: streams are told apart by numbers that are not used twice; that a new stream may get the address of a freed one is not modelled.
- AVDTP: the streams that remote end points point to, capabilities inside sessions, error codes of rejects, delay values.
- AVDTP: replies and requests of sessions are single steps; that their packets arrive is the subject of `avdtp_wire.dfy` alone.
- AVCTP: the browsing channel, which delays its queue until it is connected; disconnection from inside a callback.
- AVRCP: MTUs that leave no room for a parameter byte; the builders of text lists; what remains in the output arrays of the attribute parser beyond the entries it stored.
- Adapter: key files, resolution of private addresses, device properties. The time stamps by which a loaded cache is sorted are the order it is loaded in. The callback for the end of a scan does not call back into discovery.
- Launcher: sorting by signal strength is any order of the snapshot, and a tool always finishes or is killed. Of the BTC worker only its use of the shared attempt counters and of the locks is modelled. Reboots, logging, and the report and plotting scripts are not.
- Audio: interrupted system calls are repeated until they give a result. Sequence numbers, packet contents and the encoder's bit rate are not modelled.
