# sync-wave: a Dafny model of the playback barrier and the client timing rules

sync-wave lets a group of listeners in a "room" hear the same track at the same
moment. A Node.js coordinator (`backend/server.js`) keeps a table of rooms,
each with a host, a list of users, a FIFO queue of track URLs, a list of users
that have decoded the current track, the announced start time and a playing
flag. Socket handlers join a room, queue a track, dispatch the next track for
preloading, collect "ready" signals and, once as many have arrived as there are
users, announce a start 5000 ms in the future. A 5000 ms interval re-announces
the start of every playing room. Each browser (`frontend/src/App.js`) estimates
its offset to the coordinator clock from one round trip, maps the announced
start onto its audio clock (seeking if the start is already past), and on every
re-announcement measures drift, colours an indicator and nudges the playback
rate by ±1%.

Modules:

- `ServerState` (server_state.dfy): room records, emitted messages, one pure
  transition function per handler (`Join`, `AddToQueue`, `PlayNext`,
  `ClientReady`), the invariant they keep, and lemmas for the handler rules,
  the barrier and FIFO dispatch.
- `Server` (server.dfy): class `Coordinator` holding `rooms: map<RoomId, Room>`
  with one method per handler, updating the table in place and returning the
  messages it emits; `Tick` is the body of the resync interval.
- `Timing` (timing.dfy): the offset estimate, start scheduling and drift
  classification as functions over exact reals, with lemmas.
- `App` (app.dfy): class `Client` holding the refs the handlers assign
  (`serverOffset`, `localStartAt`, the source's presence and rate, the
  indicator colour).

Clock readings (`Date.now()`, `audioCtx.currentTime`) and the caller's socket
id are parameters. Server times are integer milliseconds; client times are
reals (milliseconds for wall clocks, seconds for the audio clock and drift).

Where the code and the design description of the system disagree, the model
follows the code:

- `readyUsers` is a list, not a set. `clientReady` appends with no dedup and
  no membership check, and the barrier compares lengths. Set semantics hold
  only when ids are distinct members of `users` (`ReleaseIffAllReady`). A
  repeated signal can release a room whose other member never signalled
  (`DuplicateReadyReleases`).
- `playNext` resets neither `isPlaying` nor `startedAt`. So the resync tick
  keeps announcing the previous start after an advance
  (`PlayNextKeepsAnnouncing`), not only until it.
- An unknown room is a silent no-op. No not-found result is returned.
- Drift is in seconds, with thresholds 0.05 and 0.2 and a strict `>`. So a
  drift of exactly 0.2 s is yellow, and anything strictly between 0.05 s and
  0.051 s is already yellow.
- Drift is measured on the audio clock, not on the track position, so it is
  the position error only while the rate is 1.0 (`DriftIsPositionError`).
- The offset handler reads `Date.now()` twice. It is the midpoint estimate
  only when both readings agree.

## Model

| member | source | states |
|---|---|---|
| ServerState.HandlersKeepValid | backend/server.js:36-71 | every handler keeps each room's host as its first user, and keeps "playing" equivalent to "a start time was announced" |
| ServerState.JoinCreatesRoom | backend/server.js:37-43 | joining an unseen room creates it with the joiner as host and only user, an empty queue and ready list, no start and not playing; the joiner is told it is host; no other room changes |
| ServerState.JoinExistingRoom | backend/server.js:37-43 | joining an existing room keeps its host, appends the joiner to `users` without dedup, changes nothing else, and reports host status and the new roster |
| ServerState.JoinRoleIsFirstJoiner | backend/server.js:42 | on a valid table, the role reply says "host" exactly when the caller is the room's first joiner |
| ServerState.AddToQueueAppends | backend/server.js:46-51 | a known room's queue gains the track at its tail, nothing else changes, and the new queue is broadcast; an unknown room is neither created nor changed and nothing is emitted |
| ServerState.PlayNextNoop | backend/server.js:54 | on an unknown room or an empty queue nothing changes and nothing is emitted |
| ServerState.PlayNextDispatchesHead | backend/server.js:53-59 | otherwise the old tail becomes the queue, readiness is cleared, host, users, start and playing flag are untouched, and the queue and then the old head are broadcast |
| ServerState.PlayNextPreloadsHead | backend/server.js:55-58 | one dispatch announces exactly the old head for preloading |
| ServerState.PlayNextKeepsAnnouncing | backend/server.js:53-59 | a dispatch leaves the set of rooms the resync tick announces unchanged |
| ServerState.ClientReadyUnknownRoom | backend/server.js:63 | `clientReady` on an unknown room changes nothing and emits nothing |
| ServerState.ClientReadyBarrier | backend/server.js:62-71 | the caller is appended to `readyUsers` unconditionally; the barrier releases exactly when the new length equals the number of users, setting start = now + 5000, playing, and broadcasting that start; otherwise start and flag are unchanged and nothing is emitted |
| ServerState.ReleaseIffAllReady | backend/server.js:64-65 | when users are distinct and the ready ids are distinct members of `users`, release happens exactly when the ready set equals the user set |
| ServerState.MissingMemberBlocksRelease | backend/server.js:64-65 | under the same conditions, a member who has not signalled keeps the barrier shut |
| ServerState.DuplicateReadyReleases | backend/server.js:64-65 | the length test lets a participant that signals twice release a two-member room whose other member never signalled |
| ServerState.TwoParticipantSession | backend/server.js:36-71 | two joins, two enqueues, one dispatch and two ready signals give: first joiner host, second listener, queue [B] with A preloaded, no start after one signal, start now + 5000 after the second |
| ServerState.PreloadedAppend | backend/server.js:58 | the tracks announced by a concatenation of message batches are those of the first batch followed by those of the second |
| ServerState.EnqueueAllAppends | backend/server.js:46-51 | enqueuing tracks one by one leaves the room's queue as the old queue followed by the tracks, in order, and the rest of the record unchanged |
| ServerState.PlayNextTimesDispatches | backend/server.js:53-59 | n dispatches from a queue of at least n tracks announce its first n tracks in order and leave the rest |
| ServerState.Fifo | backend/server.js:48-58 | after enqueuing tracks, as many dispatches as queued tracks announce the old queue then the new tracks in enqueue order, and empty the queue |
| ServerState.JoinAsWrittenAgrees | backend/server.js:37-43 | `joinRoom` as written (create only when the lookup finds nothing, then push onto whatever the second lookup yields) behaves as the model's `Join` whenever the room name is not an inherited object property or is already an own key of the table |
| ServerState.InheritedRoomThrows | backend/server.js:37-40 | as written, joining a room whose name is an inherited object property and not yet an own key creates nothing and throws at the push |
| ServerState.ConstructorRoomThrows | backend/server.js:37-40 | as written, joining a room named "constructor" on a fresh coordinator throws, while the corrected `Join` creates it |
| Server.Coordinator.constructor | backend/server.js:27 | the room table starts empty |
| Server.Coordinator.JoinRoom | backend/server.js:36-44 | updates the table and emits exactly as `Join` says, keeping the table invariant |
| Server.Coordinator.AddToQueue | backend/server.js:46-51 | updates the table and emits exactly as `AddToQueue` says, keeping the table invariant |
| Server.Coordinator.PlayNext | backend/server.js:53-60 | updates the table and emits exactly as `PlayNext` says, keeping the table invariant |
| Server.Coordinator.ClientReady | backend/server.js:62-71 | updates the table and emits exactly as `ClientReady` says, keeping the table invariant |
| Server.Coordinator.Tick | backend/server.js:73-77 | changes no room; emits one `syncPosition` carrying the room's start for each playing room, and none for any other room |
| Timing.EstimateOffset | frontend/src/App.js:24-27 | when the two reply-time readings agree, the offset is the server stamp minus the midpoint of send and receive times |
| Timing.OffsetBias | frontend/src/App.js:24-27 | the estimate equals the true offset plus half the difference of the outbound and return legs, so it is exact for a symmetric round trip |
| Timing.AudioStart | frontend/src/App.js:52-55 | the computed local start lies in the audio clock's past exactly when the announced start lies in the past of the estimated coordinator clock (local time plus offset), and coincides with now exactly when they coincide |
| Timing.Schedule | frontend/src/App.js:55-57 | a past start begins now with a strictly positive seek, otherwise playback is scheduled at the computed start, never in the past; in both cases, at the fresh source's rate 1.0, the position at any audio time t from the moment the source sounds is t minus the computed start |
| Timing.LocalStartAt | frontend/src/App.js:59 | the stored local start equals the computed start in both branches |
| Timing.SharedTimeline | frontend/src/App.js:52-57 | with an exact offset and rate 1.0, the position played at a given coordinator time is that time minus the announced start, whatever the participant's clock readings, provided its audio clock advances in step with the coordinator clock |
| Timing.DriftCancelsStart | frontend/src/App.js:52-65 | measured against the local start recorded by `startPlayback`, drift is the advance of the estimated coordinator clock since the start message (in seconds) minus the advance of the audio clock; the announced start cancels out |
| Timing.DriftIsPositionError | frontend/src/App.js:52-65 | for a source kept at a constant rate since its start call, drift equals the expected position minus the position reached plus (rate - 1) times the time it has sounded; so drift is the position error only while the rate stays 1.0 |
| Timing.NoDriftWhenClocksAgree | frontend/src/App.js:52-65 | when the estimated coordinator clock and the audio clock have advanced equally since the start was mapped, a later resync measures zero drift, whatever the error in the offset used to map the start |
| Timing.DriftIgnoresNudge | frontend/src/App.js:65-68 | after the rate is set at some audio time, the true position error equals the measured drift minus (rate - 1) times the time since; the rate never enters the measurement |
| Timing.OffsetErrorLocksNudge | frontend/src/App.js:64-71 | for an armed participant (non-zero `localStartAt`) whose start was mapped exactly, whose audio clock runs in step with the coordinator clock, and whose offset estimate becomes 100 ms too large after the start was scheduled (a later resample), every resync k seconds after the start measures 0.1 s of drift and sets rate 1.01, and the position runs 0.01 s per second since the nudge ahead of the coordinator's timeline |
| Timing.PositionDriftConverges | frontend/src/App.js:65-71 | if drift were measured on the track position, the nudge chosen by the rate rule would move a drift outside the green band strictly toward 0 at 0.01 s per second, without overshoot for up to 100 times its size in seconds |
| Timing.ClassifyBands | frontend/src/App.js:66-71 | green exactly when abs(drift) <= 0.05, yellow exactly when 0.05 < abs(drift) <= 0.2, red exactly when abs(drift) > 0.2 |
| Timing.ClassifyBoundaries | frontend/src/App.js:66-67 | 0.05 is green, 0.051 and 0.2 are yellow, 0.201 is red, for either sign |
| Timing.RateSteersTowardSync | frontend/src/App.js:66-71 | the rate is above 1 exactly when the drift is above 0.05 and below 1 exactly when it is below -0.05; it is 1.0 exactly in the green band; out of sync it is 1.01 or 0.99 by sign alone, whatever the severity |
| App.Client.constructor | frontend/src/App.js:13-19 | offset 0, no local start, no source, indicator class `bg-green-400` |
| App.Client.OnServerTime | frontend/src/App.js:26-28 | the offset becomes the new estimate, whatever the previous value |
| App.Client.OnStartPlayback | frontend/src/App.js:43-59 | a fresh source at rate 1.0 is started as `Schedule` decides from the start computed with local time plus offset, and the local start is recorded |
| App.Client.OnSyncPosition | frontend/src/App.js:63-73 | nothing changes while the local start is null or 0; otherwise the indicator gets the CSS class of the drift band (green, yellow or red) and, when a source exists, the rate is set from the drift |

## Findings

| source | as written | input that shows it | evidently intended | confidence | as-written member | corrected member |
|---|---|---|---|---|---|---|
| frontend/src/App.js:65-71 | drift compares coordinator time with audio-clock time since `localStartAt`, never with the track position, so the ±1% rate nudge does not show up in later measurements | a participant whose resampled offset puts the drift at 0.1 s gets rate 1.01; at the next resyncs the measured drift is still 0.1 s, the rate stays 1.01 and the position moves 10 ms per second past the intended one (`OffsetErrorLocksNudge`: for any start and any armed participant whose offset estimate becomes 100 ms too large after the start was scheduled, by a later resample, the drift is 0.1 s at every resync and the position runs 0.01 s ahead per second since the nudge; an error already present when the start was mapped is invisible to drift altogether, by `NoDriftWhenClocksAgree`) | the nudge is a feedback correction whose effect the next measurement sees, so drift converges into the green band | not executed; medium (the Web Audio position advances at the playback rate while `currentTime` does not) | Timing.DriftIgnoresNudge | Timing.PositionDriftConverges |
| backend/server.js:27-40 | `rooms` is a plain object literal, so `rooms[room]` is truthy for names inherited from `Object.prototype`; the room is never created and `rooms[room].users.push` throws a TypeError | `joinRoom` with room "constructor" (or "__proto__", "toString", ...) on a fresh coordinator | every room name creates a room on first join | not executed; high (standard JavaScript property lookup) | ServerState.ConstructorRoomThrows | ServerState.JoinCreatesRoom |

`App.Client.OnSyncPosition` keeps the drift measurement as the program
computes it; `Timing.PositionDrift` is the corrected measurement, for which
convergence is proved.

The same lookup makes `addToQueue`, `playNext` and `clientReady` throw on those
names. Only `joinRoom` is modelled as written (`ServerState.JoinAsWritten`).
The rest of the model uses own-key lookup, which is `in` on a Dafny map.

## Left out

- Server.Coordinator.Tick: states the emitted messages up to order. JavaScript's `for...in` order over the room keys (integer-like room names in ascending numeric order, then the other names in insertion order) is not modelled, because the table is a Dafny map.
- Transport (socket.io): connections, `socket.join`, `io.to(...).emit`, `socket.once/on/off`. Emissions are returned as message values. Per-room delivery order is the order of the returned sequence.
- The `getServerTime` reply (backend/server.js:34). It only echoes the coordinator clock, and appears in the client model as the `sTime` parameter.
- Upload route, multer storage, creation of the uploads directory, `server.listen` (backend/server.js:15-31, 80-81). These are I/O.
- Timer plumbing. Each connection starts its own never-cleared 5000 ms interval (backend/server.js:73), so several ticks may run per period. The model has one tick method. The client's 30 s resampling interval is also left out.
- `Date.now()` and `audioCtx.currentTime` are parameters. In `startPlayback`, `currentTime` is read several times; the model takes one reading for all of them.
- Track fetch, `arrayBuffer`, `decodeAudioData` and the `clientReady` emit after decoding (frontend/src/App.js:36-41). These are asynchronous I/O and a foreign audio library.
- Web Audio node creation, stopping the previous source, the analyser and the visualizer (frontend/src/App.js:44-50, 60, 78-91). Only the start call, the seek and the rate are modelled.
- React state, rendering, `join` and `upload` (frontend/src/App.js:8-20, 93-154). These are UI.
- Track position under more than one rate change. `PositionAt` assumes one constant rate since the start call, and `NudgedPosition` one change of rate; the client's history of rate changes is not tracked.
- IEEE-754 rounding. Exact reals (client) and unbounded integers (server) are used, so `LocalStartAt` is exactly the computed start.
- JavaScript coercion of non-string room values and ids. Rooms, ids and track references are strings.
- The thrown TypeError on inherited room names is modelled only for `joinRoom`.
