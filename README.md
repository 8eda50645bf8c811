# face-service real-time gateway, in Dafny

This project models the real-time core of the face-service gateway:

- **Device frame multiplexer.** Devices publish JPEG frames on the broker topic `/3ml/device/<id>/framed/out`. The gateway keeps three tables:
  - the set of devices whose frame topic it has subscribed to;
  - `streams`: frame topic → session id → the viewer's stream, or nil once the viewer went away;
  - `currentFrame`: device id → last frame.

  A frame is pushed to every live session of its topic and then becomes the device's current frame. A viewer attaches a new session (registering the device lazily), and its session is set to nil when it leaves. The snapshot endpoint returns the current frame as `image/jpeg`.
- **Recognition RPC over the broker.** `callRPC` subscribes to `/3ml/rpc/recognizeFaces/response/<reqId>`, publishes the request on `/3ml/rpc/recognizeFaces/request`, and returns the first of: the decoded reply, a reply that failed to decode (a response carrying the error), or the 5 second timeout.
- **Recognition handlers.**
  - `recognizeFaces` retries an empty result while fewer whole seconds than `?timeout=N` have elapsed.
  - The live recognition loop of the earlier single-file gateway (`main.go`) shows each recognised frame until an RPC round fails.
- **WebSocket notifications.**
  - A connection registry (`wsMap`) and a desk watch registry (`deviceNotifyConnMap`).
  - The per-connection read loop handling `WATCH_DESK` and `UNWATCH_DESK`.
  - The dispatch of a broker desk notification: one reminder to each watcher that is still connected.
- **Authentication middleware.** Token extraction from `Authorization: Bearer …` or `?accessToken=`, and the accept or reject decision.

Files:
- `common.dfy`: Option, Result, bytes, prefix helpers.
- `topics.dfy`: frame topics and the device-id regular expression.
- `gateway.dfy`: the three tables as classes (`DeviceSet`, `StreamTable`, `FrameStore`), plus a value-level specification of the stream table over runs of events.
- `device_controller.dfy`: the controller's live-view attach and frame callback.
- `main_gateway.dfy`: the single-file gateway's callbacks, live view, live recognition.
- `rpc.dfy`: `callRPC`.
- `recognize.dfy`: the `recognizeFaces` retry loop and `strconv.Atoi`.
- `ws_controller.dfy`: WebSocket registries, read loop, dispatch.
- `firebase_auth.dfy`: the middleware.

State that the source updates in place is modelled as class fields changed by methods:
- a viewer's stream is the log of frames handed to it;
- a WebSocket connection is the log of messages written to it.

Loops over Go maps pick elements with `:|`, so each result holds for every iteration order. Broker subscriptions are recorded as a log of topics.

Some of the source's behaviour differs from what a reader might expect. The model follows the code in each case:

- **RPC reply subscription is never released.** Neither version of `callRPC` unsubscribes its reply topic on return.
  - The controller's `callRPC` disconnects its per-call client instead.
  - The `main.go` `callRPC` runs on the shared client and leaves the reply subscription in place (`Rpc.CallRpc`, `stillSubscribed`).
- **A decode failure is reported as success.** `recognizeFaces` never reads `resp.Error`, so a decode failure looks like an empty face list. It is never answered 500: without an integer timeout it is answered 200 with no faces, and with one it is retried exactly as an empty reply is, then answered 200 with no faces (`Recognize.DecodeFailureLooksEmpty`).
- **Closed connections stay in the watch sets.** Only `UNWATCH_DESK` removes an id from a watch set (`WSController.UnwatchDesk`), so the ids of closed connections accumulate unless they were unwatched first. `Close` removes the id from `wsMap` only, and dispatch skips stale ids (`WSController.CloseThenDispatch`).
- **A read error does not close the connection.** When a read fails without a close frame, the read loop ends but the id stays in `wsMap`, so later notifications are still pushed to it (`WSController.ServeKeepsConnections`); only a close frame removes it (`WSController.ServeStopsWhenClosed`). `UNWATCH_DESK` for an unknown desk creates an empty watch set.
- **Dispatch uses the payload's desk id.** It does not use the topic the notification arrived on. The code uses the `DeskId` decoded from the payload, whatever topic it came on (`WSController.Dispatched` takes no topic).

## Model

| member | source | states |
|---|---|---|
| Common.TrimPrefix | auth/FirebaseAuth.go:16 | removes one leading prefix when present (s == p + r), otherwise returns s unchanged |
| Topics.MatchFrameTopic | controller/DeviceController.go:29 | as written: a capture never holds a newline; definition, properties in Topics.MatchFrameTopicExact |
| Topics.DeviceIdOfTopic | controller/DeviceController.go:29 | corrected dot-all expression; definition, properties in Topics.DeviceIdOfTopicExact |
| Topics.FrameOutTopicParts | controller/DeviceController.go:85 | a device's frame topic has the prefix/suffix shape and its middle is exactly the device id |
| Topics.FrameOutTopicInjective | controller/DeviceController.go:85 | distinct devices publish on distinct frame topics |
| Topics.ShapeIsFrameOutTopic | controller/DeviceController.go:29 | every topic of the anchored shape is the frame topic of its middle part |
| Topics.MatchFrameTopicExact | controller/DeviceController.go:29 | the expression as written captures d from a topic iff the topic is d's frame topic and d has no newline |
| Topics.NewlineDeviceIdUnmatched | controller/DeviceController.go:29 | as written, the frame topic of the id "cam\n1" is not matched |
| Topics.DeviceIdOfTopicExact | controller/DeviceController.go:29 | dot-all expression: captures d iff the topic is d's frame topic |
| Topics.DeviceIdOfTopicRoundTrip | controller/DeviceController.go:29 | dot-all expression recovers every device id from its topic |
| Gateway.OneSubscriptionPerDevice | controller/DeviceController.go:40-47 | resubscribing over any enumeration of the set makes as many subscriptions as devices, none twice, and a device's topic is among them iff the device is in the set |
| Gateway.DeviceSet.constructor | controller/DeviceController.go:26 | the controller's device set starts empty with no subscription |
| Gateway.DeviceSet.Seeded | main.go:38-39 | the single-file gateway's set is exactly the two seeded ids |
| Gateway.DeviceSet.EnsureSubscribed | controller/DeviceController.go:73-83 | the device is added; its topic is subscribed iff it was not in the set, so a second call subscribes nothing; the set only grows |
| Gateway.DeviceSet.Resubscribe | controller/DeviceController.go:40-47 | on connection every device is subscribed once, in some enumeration of the set; the set is unchanged |
| Gateway.NilSlotStaysNil | controller/DeviceController.go:96-99 | a nil session slot keeps its key and stays nil through any run that does not reattach the same session |
| Gateway.ReleasedSessionGetsNothing | controller/DeviceController.go:96-99 | after release a session is handed no frame for the rest of any run that does not reattach it |
| Gateway.LiveSessionGetsTopicFrames | main.go:59-66 | a live session is handed exactly the frames published on its topic, in order, once per delivery of its topic's callback (what reaches the HTTP viewer is up to the MJPEG library) |
| Gateway.ThreeViewersScenario | main.go:92-110 | three viewers, a frame, one viewer leaves, a frame: the two remaining got both frames, the one that left is nil |
| Gateway.StreamTable.constructor | controller/DeviceController.go:24 | the stream table starts empty |
| Gateway.StreamTable.Attach | controller/DeviceController.go:85-94 | creates the topic's inner map if missing and stores a new empty stream under the session; nothing else changes |
| Gateway.StreamTable.Release | controller/DeviceController.go:96-99 | the session's slot becomes nil, its key and every topic stay, nothing else changes |
| Gateway.StreamTable.FanOut | main.go:60-66 | every non-nil session of the topic gets the frame appended, nil sessions and other topics are unchanged |
| Gateway.FrameStore.constructor | controller/DeviceController.go:28 | the frame store starts empty |
| Gateway.FrameStore.Store | main.go:67-69 | the payload becomes the device's current frame; every other device's frame is unchanged |
| Gateway.FrameStore.Snap | main.go:147-151 | content type image/jpeg and the device's current frame, or an empty body when none was seen |
| Gateway.SnapAfterTwoFrames | main.go:147-151 | after two frames from a device, the snapshot is the second one, as image/jpeg |
| Gateway.FrameStore.Snapshot | main.go:121-123 | a fresh buffer (not an alias of the store) with the current frame's bytes |
| DeviceController.CaptureLive | controller/DeviceController.go:71-94 | lazily registers and subscribes the device, then attaches the session under the device's frame topic |
| DeviceController.HandleFrame | controller/ProjectController.go:112-124 | corrected: fans the frame out on its topic and stores it under the device id the dot-all expression recovers; as written (Topics.MatchFrameTopic) a device id with a newline has no capture and the handler panics after the fan-out |
| Rpc.ReplyTopicExact | controller/DeviceController.go:164 | a topic is the reply topic of id r iff it is the reply prefix followed by r |
| Rpc.ReplyTopicsDistinct | controller/DeviceController.go:157-164 | distinct request ids have distinct reply topics |
| Rpc.FirstEvent | controller/DeviceController.go:191-198 | the deadline wins iff no reply arrives, or the reply arrives at or after 5000 ms; otherwise the decoded reply is what the caller sees |
| Rpc.Outcome | controller/DeviceController.go:178-198 | exactly one of response and error; error "timeout" iff the deadline won; response error set iff the reply failed to decode, with no faces; a decoded reply is returned as is |
| Rpc.CallRpc | controller/DeviceController.go:156-199 | the subscribed reply topic names the request's own id, the request carries that id and the image and goes to the request topic; a reply subscription is left behind iff the shared client is used; the result is the outcome of the first event |
| Rpc.CallsDoNotShareReplies | main.go:271-278 | two calls with distinct ids subscribe distinct reply topics and neither topic names the other's id |
| Recognize.Atoi | controller/DeviceController.go:114 | an accepted value lies in the 64-bit range; properties in Recognize.AtoiDecimal and Recognize.AtoiRejectsMalformed |
| Recognize.Decide | controller/DeviceController.go:110-136 | an answer with faces carries the round's own image; properties in Recognize.RetryExactly |
| Recognize.AtoiDecimal | controller/DeviceController.go:114 | the integer parse reads back every non-negative 64-bit value written in decimal |
| Recognize.AtoiRejectsMalformed | controller/DeviceController.go:114 | a missing parameter, a bare sign and trailing garbage are not integers |
| Recognize.RpcErrorIs500 | controller/DeviceController.go:110-112 | an RPC timeout answers 500 with "timeout" whatever the timeout parameter |
| Recognize.RetryExactly | controller/DeviceController.go:114-136 | a round retries iff the reply came, held no face, timeout is an integer and the elapsed seconds are below it; an answer carries the round's image and faces |
| Recognize.NoTimeoutAnswersFirstRound | controller/DeviceController.go:114-119 | without an integer timeout the first reply is answered even when empty |
| Recognize.DecodeFailureLooksEmpty | controller/DeviceController.go:110-129 | for every timeout parameter, a reply that failed to decode is never answered 500: it retries iff the timeout is an integer above the elapsed seconds, exactly as an empty reply does, and otherwise is answered 200 with no faces |
| Recognize.RecognizeFaces | controller/DeviceController.go:103-140 | the handler answers at the first round that does not retry, with that round's decision, after all earlier rounds retried; or all rounds retried |
| Recognize.AnswersByTimeout | controller/DeviceController.go:121-129 | with an integer timeout, a round at or past it always answers |
| MainGateway.Callbacks | main.go:56-68 | corrected: one callback per device, each filing frames under the device whose frame topic it listens on; properties in MainGateway.CallbacksFileUnderTheirTopic |
| MainGateway.CallbacksAsWritten | main.go:56-68 | as written: definition; properties in MainGateway.SharedLoopVariableMisfiles |
| MainGateway.CallbacksFileUnderTheirTopic | main.go:56-70 | corrected: each callback listens on the topic subscribed at its position and files frames under the device that topic names |
| MainGateway.SharedLoopVariableMisfiles | main.go:56-68 | as written: with distinct devices every callback but the last files frames under another device |
| MainGateway.SeededDevicesMisfiled | main.go:56-68 | as written on the two seeded ids: the first device's frames are filed under the second |
| MainGateway.OnConnect | main.go:53-74 | corrected: one frame subscription per device in some enumeration of the set, each with a callback filing under its own device (as written, MainGateway.CallbacksAsWritten, all file under the last); the set is unchanged |
| MainGateway.OnFrame | main.go:59-69 | fans the frame out on the callback's topic and stores it under the callback's device |
| MainGateway.CaptureLive | main.go:92-110 | attaches the session under the device's frame topic without touching the device set |
| MainGateway.RecognizeLiveStepAsWritten | main.go:127-140 | as written: definition; properties in MainGateway.DecodeFailureCrashesAsWritten |
| MainGateway.DecodeFailureCrashesAsWritten | main.go:131-133 | as written: a reply that failed to decode crashes the round |
| MainGateway.RecognizeLiveStep | main.go:127-140 | corrected: a round never crashes and shows only the frame it was given; properties in MainGateway.RecognizeLiveStepOutcomes |
| MainGateway.RecognizeLiveStepOutcomes | main.go:127-140 | corrected: never crashes; shows the frame iff the reply decoded; 500 "timeout" on the deadline, 500 with the decoder's message on a decode failure |
| MainGateway.RecognizeLive | main.go:112-145 | corrected (rounds by MainGateway.RecognizeLiveStep; as written, MainGateway.RecognizeLiveStepAsWritten crashes on a decode failure): every shown frame is a copy of the device's current frame and came from a decoded reply; the loop stops at the first failing round with its 500 message |
| WSController.NotificationTopics | controller/WSController.go:140-142 | one notification topic per known desk, in list order |
| WSController.HandleMessage | controller/WSController.go:82-126 | one message never adds or removes a connection; properties in WSController.WatchKnownDesk, WSController.UnwatchDesk and related lemmas |
| WSController.Serve | controller/WSController.go:64-128 | definition of the read loop; properties in WSController.ServeKeepsConnections and WSController.ServeStopsWhenClosed |
| WSController.Dispatched | controller/WSController.go:144-168 | dispatch never adds or removes a connection; properties in WSController.DispatchReachesLiveWatchers |
| WSController.WatchMissingDesk | controller/WSController.go:83-97 | a desk the store does not count: a fail push to the sender, watch sets unchanged |
| WSController.WatchKnownDesk | controller/WSController.go:98-114 | the sender joins the desk's set and gets a success push; other desks unchanged; repeating leaves the sets as they are |
| WSController.UnwatchDesk | controller/WSController.go:116-124 | the sender leaves that desk's set only, with no push; a no-op on the sets when it was not watching |
| WSController.UnknownTypeIgnored | controller/WSController.go:82-126 | any other message type leaves both registries unchanged |
| WSController.DispatchReachesLiveWatchers | controller/WSController.go:144-168 | an undecodable payload pushes nothing; otherwise each connected watcher gets exactly one reminder and every other connection nothing |
| WSController.WatchThenDispatch | controller/WSController.go:98-168 | watch then notification: the connection receives the success push then exactly one reminder |
| WSController.UnwatchThenDispatch | controller/WSController.go:116-168 | unwatch then notification: the connection receives nothing |
| WSController.CloseThenDispatch | controller/WSController.go:151-157 | close leaves the watch sets as they are; dispatch skips the closed id and still serves every live watcher |
| WSController.ServeStopsWhenClosed | controller/WSController.go:69-75 | the read loop stops at once, changing nothing, when its id is gone |
| WSController.ServeKeepsConnections | controller/WSController.go:69-80 | the read loop never adds a connection or removes another one; if it is still reading, every read so far was a message |
| WSController.ConnectionRegistry.constructor | controller/WSController.go:28 | the connection map starts empty |
| WSController.ConnectionRegistry.Register | controller/WSController.go:41-49 | the connection is stored under its id and its first push is CONNECTED with the id |
| WSController.ConnectionRegistry.Close | controller/WSController.go:51-57 | removes the id from the connection map and nothing else |
| WSController.ConnectionRegistry.Push | controller/WSController.go:159-163 | appends the message to that connection's log only |
| WSController.WatchRegistry.constructor | controller/WSController.go:31 | the watch map starts empty |
| WSController.WatchRegistry.Watch | controller/WSController.go:99-104 | adds the id to the desk's set, creating it if missing |
| WSController.WatchRegistry.Unwatch | controller/WSController.go:118-123 | removes the id from the desk's set, creating an empty set if missing |
| WSController.Connect | controller/WSController.go:37-60 | registers the upgraded connection with its CONNECTED push |
| WSController.ServeMessage | controller/WSController.go:82-126 | both registries change exactly as one message's rule says |
| WSController.ServeWebSocket | controller/WSController.go:64-128 | the loop's final registries and stop reason are those of the read-loop rule over the reads delivered |
| WSController.Dispatch | controller/WSController.go:140-170 | the connections after a notification are exactly those of the dispatch rule |
| FirebaseAuth.ExtractToken | auth/FirebaseAuth.go:12-20 | definition; properties in FirebaseAuth.OneBearerRemoved, FirebaseAuth.HeaderTakesPrecedence and FirebaseAuth.EmptyTokenExactly |
| FirebaseAuth.Authenticate | auth/FirebaseAuth.go:12-33 | every abort has status 401; properties in FirebaseAuth.AuthenticateDecision |
| FirebaseAuth.HeaderTakesPrecedence | auth/FirebaseAuth.go:14-20 | with a non-empty header the query parameter does not affect the token |
| FirebaseAuth.OneBearerRemoved | auth/FirebaseAuth.go:12-16 | exactly one leading "Bearer " is removed; a header without it is the token unchanged |
| FirebaseAuth.EmptyTokenExactly | auth/FirebaseAuth.go:12-22 | the token is empty iff the header is exactly "Bearer ", or header and query are both empty |
| FirebaseAuth.AuthenticateDecision | auth/FirebaseAuth.go:22-33 | continues iff the token is non-empty and validates, with the validator's user and the token; otherwise 401 with "Missing JWT Token" under "error" or the validator's error under "err" |
| FirebaseAuth.BareBearerIsMissing | auth/FirebaseAuth.go:16-23 | a header of exactly "Bearer " is rejected as a missing token whatever the query holds |

## Left out

- Gateway.DeviceSet.EnsureSubscribed, Gateway.DeviceSet.Resubscribe: `getFrameOutTopic` is not part of this model. It is assumed to build `"/3ml/device/" + id + "/framed/out"`, as controller/DeviceController.go:85 and main.go:57 do.
- Gateway.LiveSessionGetsTopicFrames: MQTT wildcard characters in device ids are not modelled. A device id from the URL that holds `+` or `#` makes its frame topic a wildcard filter. The broker library then calls every matching route's handler, so one frame may be handed to a session more than once, or frames of other devices may be handed to it. The model treats a topic as a plain string.
- Broker client plumbing is not modelled: options, keep-alive, QoS values (including the 9 passed at controller/DeviceController.go:190), publish and subscribe tokens, and service/MQTTService.go. A subscription is an entry in a log of topics.
- A failed initial broker connection panics at start-up. This is not modelled.
- Rpc.CallRpc: a failed connect of the per-call client is not modelled. The controller's `callRPC` creates and connects a new broker client on every call, and panics when that connect fails (controller/DeviceController.go:166-174). The model describes a call whose client is connected.
- Concurrency is not modelled: locks, goroutines, and the races of the source. The model is sequential. The races are:
  - the unlocked insert into `wsMap`;
  - the unlocked release of a session;
  - the frame write under a read lock in `main.go`;
  - the unlocked read of the watch map during dispatch;
  - frames arriving while a live recognition is running: MainGateway.RecognizeLive takes the frame store as fixed across its rounds, whereas in the source the broker callback may store a new frame between two rounds.
- Timers and clocks are inputs.
  - The RPC's first event is given, as a reply with its arrival time or the deadline.
  - Each recognition round carries the whole seconds elapsed.
  - A reply arriving at exactly 5000 ms is counted as a timeout, although Go picks at random between two ready cases.
- A reply that arrives after the caller timed out blocks its callback forever on the unbuffered channel. On `main.go`'s shared client, the broker library's default ordered delivery means every later delivery on that client waits behind it, frames included. Goroutines and delivery order are not modelled.
- MJPEG serving, JPEG content, base64 and JSON encoding and decoding are opaque. A decoded reply or notification is an input. A write to a stream or a connection always succeeds: write errors are only logged in the source.
- The record store is a parameter.
  - The desk count is an `int` argument; a failing count reads as 0 in the source.
  - The desk list used for notification topics is a parameter.
  - Its failure (a panic) is not modelled.
- The token validator (`GetUserFromToken`, JWT parsing) is a function parameter. auth/AuthService.go is not part of this model.
- FirebaseAuth.AuthenticateDecision: the `"err"` body holds the validator's error text. How encoding/json renders a Go error value is not modelled.
- Fresh ids (`uuid.New()`) are parameters. The model does not exclude collisions.
- The other HTTP handlers are not part of this model: device lookup, events, and both face detection variants.
- The controller's live `handleFrame` is not part of this model. DeviceController.HandleFrame follows its commented-out copy (controller/ProjectController.go:112-124) and the frame callback of main.go.
- DeviceController.HandleFrame: requires the topic to be a frame topic. The broker only delivers on subscribed frame topics.
- Gateway.StreamTable.Release: requires the topic's inner map to exist. The releasing handler always attached first, and in Go a write into a missing inner map panics.
- Gateway.Apply: in the event-level rule, a release of a topic that has no sessions changes nothing. In Go it would panic, and it cannot happen because every release follows its own attach.
- Recognize.RecognizeFaces: the rounds the environment delivers are a finite sequence, so a request still retrying when they run out ends as `StillRetrying`. Each round's image is an input, not read from `FrameStore`.
- Recognize.Atoi models `strconv.Atoi` on a 64-bit platform only.
- WSController.ServeWebSocket: the read loop gets its reads as a finite sequence. When they run out the loop is still blocked reading. A message that fails to decode counts as a failed read. A close frame runs the close handler and then ends the read.
- The gorilla close handler returns without echoing a close frame. This is not modelled.

## Findings

| source | as written | input that shows it | evidently intended | confidence | as-written member | corrected member |
|---|---|---|---|---|---|---|
| controller/DeviceController.go:29 | `(.*)` without the `s` flag does not match a newline, so the frame topic of a device whose id holds one is not matched; indexing the capture then panics | device id "cam\n1" registered through the live-view path | the capture is the device id for every id (dot-all) | medium, not executed | Topics.NewlineDeviceIdUnmatched | Topics.DeviceIdOfTopicExact |
| main.go:56-68 | every frame callback closes over the one `range` variable, which holds the last device after the loop (Go before 1.22), so frames of all devices are stored under the last one | the two seeded devices | each callback stores frames under its own device | medium (depends on the Go version the module builds with), not executed | MainGateway.SharedLoopVariableMisfiles | MainGateway.CallbacksFileUnderTheirTopic |
| main.go:131-133 | when the reply fails to decode, `err` is nil and `err.Error()` dereferences it | a reply payload that is not valid JSON, arriving before the deadline | answer 500 with the decoder's message | high, not executed | MainGateway.DecodeFailureCrashesAsWritten | MainGateway.RecognizeLiveStepOutcomes |
