# ChatBox coordination core in Dafny

ChatBox is an Android activity that combines a local chat with a
bike-station telemetry panel. Peers talk either over a nearby-device transport
("real" mode) or with three scripted peers ("simulation" mode). This project
models the activity's in-memory coordination logic as pure functions over one
state record (`Engine.AppState`), and proves what each step promises:

- **Peer registry** (`Registry`). An insertion-ordered list of peer records,
  searched by endpoint id as Kotlin's `indexOfFirst` and `firstOrNull` do.
  Operations: upsert, mark-disconnected, display-name fallback,
  removal of simulated peers, and the recipient filter of a public send.
- **Wire codec** (`Codec`, on top of `Text`). Messages are
  `<kind>|<scope>|<target>|<id>|<body>`. Decoding is Kotlin's
  `split("|", limit = 5)`, so a `|` inside the body comes back unharmed.
  `Text` models `trim` (with Kotlin's notion of whitespace), `take`, `split`
  with a limit, and joining.
- **Router and lifecycle** (`Engine`):
  - the public and direct sends;
  - the filing of incoming CHAT/PUBLIC and CHAT/DM payloads;
  - the transport callbacks (found, lost, initiated, result, disconnected);
  - the mode switch and the start/stop of the real network;
  - the population of the simulated peers and the delayed simulated replies.
- **Telemetry tick** (`Telemetry`). One pass of the simulation loop: every
  station within 5 units of the proximity value moves by a draw in [-2, 2],
  clamped to [0, capacity].
- **Whole-system properties** (`EngineProperties`):
  - an invariant every input preserves: unique ids, reserved simulation ids,
    stocked stations, and no simulation in real mode;
  - the send-then-receive round trips;
  - idempotence of starting the simulation;
  - three simulation-mode scenarios: a public send, a direct message, and a
    reply delivered after switching to real mode.

Random values (UUID-derived ids, which simulated peer answers, which canned
reply, tick draws) are parameters. A delayed simulated reply is a
`PendingReply` value that the send returns and a later `DeliverReply` files.
A transmission is a `Transmission(to, bytes)` value in the send's result.

## Model

All source paths are relative to the repository root.

| member | source | states |
|---|---|---|
| Text.Trim | app/src/main/java/com/example/chatbox/MainActivity.kt:249-250 | the result is the input with leading and trailing whitespace removed (a contiguous slice, with non-whitespace ends); it is empty exactly when the input is all whitespace, which is when a send is ignored |
| Text.TrimIdempotent | app/src/main/java/com/example/chatbox/MainActivity.kt:249 | trimming an already trimmed text changes nothing |
| Text.Take | app/src/main/java/com/example/chatbox/MainActivity.kt:353 | `take(n)` is the prefix of length min(n, length) |
| Text.Split | app/src/main/java/com/example/chatbox/MainActivity.kt:227 | `split` with a limit yields at least one and at most `limit` parts, joining them gives back the input, and only the last part may contain the delimiter |
| Text.SplitLength | app/src/main/java/com/example/chatbox/MainActivity.kt:227-228 | the number of parts is one more than the number of delimiters, capped at the limit |
| Text.SplitJoin | app/src/main/java/com/example/chatbox/MainActivity.kt:227 | splitting a join of n parts, whose first n-1 parts are delimiter-free, with limit n gives back the parts |
| Codec.Decode | app/src/main/java/com/example/chatbox/MainActivity.kt:227-233 | a raw text decodes exactly when it has at least four delimiters; the decoded record has delimiter-free header fields and re-encodes to the raw text |
| Codec.FiveParts | app/src/main/java/com/example/chatbox/MainActivity.kt:227-228 | a split with limit five has fewer than five parts exactly when the text has fewer than four delimiters; otherwise its five parts form a well-formed record that encodes back to the text |
| Codec.EncodeSpelledOut | app/src/main/java/com/example/chatbox/MainActivity.kt:289 | the encoding is the five fields separated by `|` |
| Codec.DecodeEncode | app/src/main/java/com/example/chatbox/MainActivity.kt:227-233 | a record whose four header fields are delimiter-free decodes back to itself, whatever its body contains |
| Codec.EncodeDecode | app/src/main/java/com/example/chatbox/MainActivity.kt:227-233 | anything that decodes is the encoding of what it decodes to |
| Codec.DecodePublicChat | app/src/main/java/com/example/chatbox/MainActivity.kt:266 | the literal public-send text `CHAT\|PUBLIC\|*\|id\|t` decodes to kind CHAT, scope PUBLIC, the same id and the same body |
| Registry.PeerIndex | app/src/main/java/com/example/chatbox/MainActivity.kt:356 | the index of the first record with the id, or the length when there is none |
| Registry.Find | app/src/main/java/com/example/chatbox/MainActivity.kt:274 | a record is found exactly when one has the id; it is the first record with that id (no earlier record has it), and the only one when ids are unique |
| Registry.PeerName | app/src/main/java/com/example/chatbox/MainActivity.kt:352-353 | a known endpoint shows its registered name; an unknown one shows the first eight characters of its id |
| Registry.Upsert | app/src/main/java/com/example/chatbox/MainActivity.kt:355-363 | an existing record is replaced in place with every other position unchanged; otherwise the record is appended; ids and uniqueness are preserved, and so is the absence of simulated records when the new one is real |
| Registry.FindAfterUpsert | app/src/main/java/com/example/chatbox/MainActivity.kt:355-363 | after an upsert the id resolves to the new record and every other id resolves as before |
| Registry.MarkDisconnected | app/src/main/java/com/example/chatbox/MainActivity.kt:365-368 | only the connection flag of the record with the id is cleared; an unknown id changes nothing |
| Registry.FindAfterMarkDisconnected | app/src/main/java/com/example/chatbox/MainActivity.kt:365-368 | after a disconnect the id resolves to its old record with the flag cleared, and every other id as before |
| Registry.SimulatedPeers | app/src/main/java/com/example/chatbox/MainActivity.kt:330 | the filter keeps exactly the simulated records |
| Registry.RemoveSimulated | app/src/main/java/com/example/chatbox/MainActivity.kt:325 | exactly the real records remain; together with the simulated ones they account for the whole registry; a registry without simulated records is untouched; unique ids stay unique |
| Registry.ConnectedRealIds | app/src/main/java/com/example/chatbox/MainActivity.kt:260 | an id is a recipient exactly when some record with it is connected and real |
| Telemetry.CoerceIn | app/src/main/java/com/example/chatbox/MainActivity.kt:315 | `coerceIn` lands in [lo, hi], keeps values already there, and maps values outside to the nearer bound |
| Telemetry.Tick | app/src/main/java/com/example/chatbox/MainActivity.kt:311-317 | one tick changes only available counts; stations at distance 5 or more are untouched; a near station ends within [0, capacity] at its clamped count plus draw; all-stocked stays all-stocked |
| Telemetry.TickMovesLittle | app/src/main/java/com/example/chatbox/MainActivity.kt:314-315 | with draws in [-2, 2] no available count moves by more than 2 |
| Telemetry.TickSingleNear | app/src/main/java/com/example/chatbox/MainActivity.kt:311-317 | when only one station is near and its draw stays in range, the tick is exactly that station moved by its draw |
| Telemetry.InitialNearness | app/src/main/java/com/example/chatbox/MainActivity.kt:73-79 | for a proximity strictly between 7 and 17 only the start-up station at 12 is near |
| Telemetry.CampusOnlyScenario | app/src/main/java/com/example/chatbox/MainActivity.kt:311-317 | for any proximity strictly between 7 and 17 and an in-range draw, a tick moves only Campus IMT, from 14 to 14 plus its draw |
| Telemetry.InitialProximityScenario | app/src/main/java/com/example/chatbox/MainActivity.kt:53 | at the start-up proximity 15 only Campus IMT moves, to 14 plus its draw |
| Engine.AddSystemMsg | app/src/main/java/com/example/chatbox/MainActivity.kt:348-350 | a notice is one more public message, with the given id and text, from the system sender, marked as a system message and not the user's own; nothing else changes |
| Engine.AppendDm | app/src/main/java/com/example/chatbox/MainActivity.kt:276-277 | the message is added at the end of that peer's thread, creating it if needed; every other thread is unchanged |
| Engine.SendPublic | app/src/main/java/com/example/chatbox/MainActivity.kt:248-268 | blank text changes nothing; otherwise the trimmed text is echoed, a "no peers" notice follows exactly when real mode has no connected real peer, bytes are sent exactly when it has one, to exactly those peers and decoding to a CHAT/PUBLIC record with the echo's id and text; a reply is scheduled exactly in simulation mode with a simulated peer present, from a simulated peer's name |
| Engine.SendDm | app/src/main/java/com/example/chatbox/MainActivity.kt:270-291 | blank text or an unknown peer changes nothing; otherwise the echo goes to that peer's thread; then either a reply credited to the peer's name is scheduled (simulation), a "not connected" notice is posted, or the bytes go to that peer alone and decode to a CHAT/DM record addressed to it |
| Engine.ReceivePayload | app/src/main/java/com/example/chatbox/MainActivity.kt:223-242 | non-byte payloads and payloads with fewer than five parts change nothing; CHAT/PUBLIC is appended to the public list and CHAT/DM to the sending endpoint's thread, both credited to the sender's display name; other kinds or scopes change nothing |
| Engine.OnDiscovered | app/src/main/java/com/example/chatbox/MainActivity.kt:212-215 | a found or initiating endpoint is recorded as a real, not yet connected peer under its advertised name; no other id changes |
| Engine.OnConnectionResult | app/src/main/java/com/example/chatbox/MainActivity.kt:196-203 | success records the endpoint as a connected real peer under its current display name and announces it; failure only reports the status |
| Engine.OnEndpointLost | app/src/main/java/com/example/chatbox/MainActivity.kt:217-219 | a lost endpoint keeps its record with the connection flag cleared |
| Engine.OnDisconnected | app/src/main/java/com/example/chatbox/MainActivity.kt:205-208 | a disconnect clears the flag and announces the peer by the name it had |
| Engine.OnTransportEvent | app/src/main/java/com/example/chatbox/MainActivity.kt:190-245 | transport callbacks touch only peers and messages, leave every other id's record alone, keep ids unique, and never add a simulated peer: every simulated record afterwards was a simulated record with the same id before |
| Engine.StartSimulation | app/src/main/java/com/example/chatbox/MainActivity.kt:294-320 | outside simulation mode nothing happens; inside it the three simulated peers and a notice are added only when no simulated peer exists, and the telemetry loop is (re)started |
| Engine.StopSimulation | app/src/main/java/com/example/chatbox/MainActivity.kt:322-327 | the loop is cancelled, exactly the real peers remain, and a notice is posted |
| Engine.StopRealNetwork | app/src/main/java/com/example/chatbox/MainActivity.kt:180-188 | the running flag is cleared and a notice posted, nothing else |
| Engine.StartAutoNetwork | app/src/main/java/com/example/chatbox/MainActivity.kt:160-178 | without permissions only the missing-permissions notice is posted; with them the mode becomes real and the network runs, after a stop notice and a start notice; nothing but the mode, the running flag and the public list changes |
| Engine.ToggleMode | app/src/main/java/com/example/chatbox/MainActivity.kt:96-105 | switching to simulation keeps every peer and appends the three simulated ones exactly when none is simulated, stops the network, runs the loop, and posts "Real network stopped" followed by "Simulation ON" exactly when the peers were added; switching to real leaves exactly the real peers, no loop, the running flag as it was, and one "Simulation OFF" notice; threads, stations and proximity never change |
| Engine.DeliverReply | app/src/main/java/com/example/chatbox/MainActivity.kt:329-345 | a due reply appends one non-own message with the scheduled id and sender and a canned text, to the public list or to that peer's thread, and nothing else |
| Engine.TelemetryTick | app/src/main/java/com/example/chatbox/MainActivity.kt:307-319 | while the loop is scheduled each iteration applies one tick at the current proximity and continues only in simulation mode; otherwise nothing changes |
| Engine.SetProximity | app/src/main/java/com/example/chatbox/MainActivity.kt:95 | the slider changes only the proximity value |
| Engine.InitialState | app/src/main/java/com/example/chatbox/MainActivity.kt:69-81 | start-up is simulation mode with the three simulated peers, one "Simulation ON" notice, the three stations at proximity 15 and the loop running |
| EngineProperties.Apply | app/src/main/java/com/example/chatbox/MainActivity.kt:95-110 | of all inputs only a tick changes the stations, and only the mode switch or a transport callback changes the peers |
| EngineProperties.AddSimPeersValid | app/src/main/java/com/example/chatbox/MainActivity.kt:296-303 | adding the simulated peers to a registry without their ids keeps ids unique and the simulation ids reserved |
| EngineProperties.TransportKeepsReserved | app/src/main/java/com/example/chatbox/MainActivity.kt:190-220 | a callback about a non-simulation id leaves the simulated records alone |
| EngineProperties.ApplyPreservesValid | app/src/main/java/com/example/chatbox/MainActivity.kt:96-105 | every input keeps ids unique, simulation ids simulated, stations stocked, and real mode free of simulated peers and of the loop |
| EngineProperties.InitialStateValid | app/src/main/java/com/example/chatbox/MainActivity.kt:69-81 | the start-up state satisfies that invariant |
| EngineProperties.PublicSendReachesReceiver | app/src/main/java/com/example/chatbox/MainActivity.kt:266-267 | what a real-mode public send transmits becomes exactly one public message at a receiver, with the sender's id and trimmed text, credited to the receiver's name for the sending endpoint |
| EngineProperties.DmSendReachesReceiver | app/src/main/java/com/example/chatbox/MainActivity.kt:289-290 | what a real-mode direct send transmits becomes exactly one message in the receiver's thread for the sending endpoint, and nothing public |
| EngineProperties.StartSimulationIdempotent | app/src/main/java/com/example/chatbox/MainActivity.kt:294-305 | starting the simulation twice equals starting it once |
| EngineProperties.ToggleToSimulationAgain | app/src/main/java/com/example/chatbox/MainActivity.kt:96-100 | switching to simulation while in it keeps the peers but posts another "Real network stopped" notice |
| EngineProperties.SimulatedReplyFrom | app/src/main/java/com/example/chatbox/MainActivity.kt:330 | with exactly the three simulated peers present, a scheduled public reply comes from Laura, Nico or Sara |
| EngineProperties.SimulatedPublicScenario | app/src/main/java/com/example/chatbox/MainActivity.kt:329-336 | "hello" in simulation mode is echoed at once and later answered by Laura, Nico or Sara, with no direct thread touched |
| EngineProperties.SimulatedDmScenario | app/src/main/java/com/example/chatbox/MainActivity.kt:338-345 | "hi" to SIM-A in simulation mode puts the echo and then one reply credited to Laura into SIM-A's thread and nowhere else |
| EngineProperties.ReplyDeliveredAfterSwitchToReal | app/src/main/java/com/example/chatbox/MainActivity.kt:332-335 | a simulated reply still due when the user switches to real mode is filed anyway |

## Behaviour of the code worth knowing

- Connection state is one boolean. An endpoint that initiates a connection is
  upserted as not connected. Nothing records "connecting".
- Switching to simulation does not remove real peers. It always posts
  "Real network stopped", so repeating it is not a no-op
  (`ToggleToSimulationAgain`). The UI only ever switches to the opposite mode.
- A delayed simulated reply is not tied to the mode it was scheduled in: a
  reply scheduled in simulation mode is still filed after a switch to real
  mode (`ReplyDeliveredAfterSwitchToReal`).
- Decoding does not check the kind. Routing silently ignores unknown kinds
  and scopes, and files a DM under the sending endpoint whatever target it
  names.
- In simulation mode a direct message to a real peer is still answered with
  a canned reply, credited to that peer's name.
- System notices always go to the public list.

## Left out

- Compose UI, selection of the direct-message peer (`selectedDmPeerId`), the
  device name, the service id and the transport strategy. They are
  presentation or configuration, not coordination.
- The nearby-connections client. `sendPayload` becomes a `Transmission` value.
  `requestConnection`, `acceptConnection`, advertising, discovery and
  `stopAllEndpoints` are not modelled. Neither are the advertising and
  discovery failure listeners (lines 173 and 177) nor
  `onPayloadTransferUpdate`.
- Permissions. `hasAllNeededPermissions` is a boolean input of
  `StartAutoNetwork`. The permission request and its result callback (with
  its "granted"/"denied" notices) are not modelled, since they belong to the
  platform.
- Coroutines, delays and cancellation. A reply is a value delivered by a
  later event, and the telemetry loop is a `simJobActive` flag plus
  explicit tick events. Interleavings finer than one event are not modelled.
- Randomness. UUIDs, `random()`, `randomOrNull()` and `Random.nextInt` are
  parameters; the simulated peer is chosen by index modulo the count.
- Byte/charset conversion of payloads. Texts travel as strings.
- `Float` coordinates and proximity. They are exact reals, so rounding near
  the distance-5 threshold is not modelled.
- Text.Split: does not state that the last part is free of the delimiter
  when fewer than `limit` parts come out. Decoding needs only the first four
  parts to be delimiter-free and the part count, and both are stated.
- Registry.RemoveSimulated: states which records remain but not that they
  keep their relative order, which `removeAll` also preserves.
- Text.Take: counts characters, whereas Kotlin's `take` counts UTF-16 code
  units. Ids with characters outside the Basic Multilingual Plane would
  differ.
- EngineProperties.ApplyPreservesValid: assumes the transport never reports
  an endpoint whose id is SIM-A, SIM-B or SIM-C. Such an endpoint would take
  over a simulated record. It also takes from the UI that the real network
  is started only outside simulation mode (the start button is shown only
  then, lines 422-423, and the permission callback checks the mode, line 65).
