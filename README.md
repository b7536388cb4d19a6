# Remote-rendering session state machine, in Dafny

The system is a small remote-rendering demo. A browser page sends keyboard, mouse and
pointer-lock events over socket.io. A Node server keeps one Three.js scene per connection
and renders it head-lessly. It streams the frames back as PNG images, and it echoes a
timestamp so the page can show the round-trip latency.

This project models the part of that system whose behaviour can be stated: the
per-connection input and session state machine.

- **Controls** models `PointerLockControls`. It holds the lock flag, the handlers it
  subscribes on the socket, the camera's yaw and pitch, and the camera position.
  - A mouse movement turns the camera only while locked, and it clamps the pitch.
  - The six move commands translate the camera along a column of the camera matrix.
  - `reset` puts the camera at a point with level orientation.
  - `pointerlockerror` takes off every handler that `connect` put on.
- **Protocol** models the socket's listener table as a multiset of event names. socket.io's
  event emitter keeps duplicate listeners, and `off` removes one of them. Delivering a
  message runs each listener registered for its name once.
- **SessionModel** is the pure specification of one session.
  - A `SessionView` value holds the listeners, the lock flag, the camera, the scene's
    children, `is_loaded`, the started render intervals and `render_interval`.
  - `Handle`, `Step` and `Run` give the effect of one listener call, of one message and of
    a sequence of messages.
  - Around these, the lemmas prove:
    - an invariant kept by every message (`WellFormed`);
    - the effect of each kind of message;
    - that moves cancel, and when a render tick between them breaks that;
    - that render intervals and scene objects accumulate over repeated loads.
- **Scene** models `RendererScene` as a class over the `Socket`, `Camera` and
  `PointerLockControls` objects.
  - The constructor, `loadScene`, each message handler, a render tick, message dispatch
    and runs of messages and ticks are each proved to move the object's `View()` exactly
    as a `SessionModel` function says (`Initial`, `AfterLoad`, `Handle`, `Step`, `Run`,
    `Tick`, `RunEvents`).
  - `AddLight`, which only the constructor calls, is stated on the fields it changes.
- **Server** models the `App` registry: a map from socket id to session, connect and
  disconnect, the latency echo, and routing of one incoming message.
- **Client** models the page. It covers the key-to-message table, the pointer-lock change
  and error handlers, `attach`/`detach`, the empty-image guard, the latency shown, and what
  one tick of the timestamp timer sends.
- **EndToEnd** connects the page's output to the session. For example, key presses that pair
  up W/S, A/D and Q/E leave a session exactly where it was, also with render ticks among
  them as long as the camera matrix was current when they started. A pointer-lock failure
  on the page changes nothing on the server.

All arithmetic is exact over `real`: `PI` is the shortest decimal that rounds to the double `Math.PI`, not that double's exact value. The camera
matrix is an opaque basis of three vectors. Only a render tick refreshes it, through a
function parameter that stands for Three.js's matrix update. The move handlers read the
matrix as last refreshed, so a move after the camera has turned and before the next tick
runs along the old vectors.

Where the behaviour depends on the code rather than on intent, the model follows the code:

- `moveUp` moves along the negated second column of the camera matrix.
- Neither a repeated `loadScene` nor a disconnect stops a render interval already started.
- A `loadScene` whose file cannot be read or parsed has still reset the camera.

## Model

| member | source | states |
|---|---|---|
| Protocol.Socket.On | src/server/PointerLockControls.ts:48 | subscribing adds one more listener for the name, keeping any already there |
| Protocol.Socket.Off | src/server/PointerLockControls.ts:53 | unsubscribing removes one listener for the name, if there is one |
| Controls.DefaultPitchRange | src/server/PointerLockControls.ts:22-23 | with the default polar angles 0 and π the pitch range is [−π/2, π/2], and level orientation lies inside it |
| Controls.Clamp | src/server/PointerLockControls.ts:42 | the result lies in [lo, hi]; it is x when x is inside, and the bound x passed when x is outside |
| Controls.OrZero | src/server/PointerLockControls.ts:34-35 | definition: a missing movement field counts as 0, the `or 0` fallback of lines 34-35; its use is stated by `Look` |
| Controls.Look | src/server/PointerLockControls.ts:34-44 | yaw drops by movementX·0.002·pointerSpeed (a missing field counts as 0); pitch drops by the same for movementY and is then clamped, so it lies in the pitch range |
| Controls.LookTimes | src/server/PointerLockControls.ts:31-45 | definition: k mousemove handler calls in a row, one `Look` each; stated by `LookTimesEffect` and `LookTimesSaturates` |
| Controls.LookTimesEffect | src/server/PointerLockControls.ts:39-42 | k looks in a row turn the yaw by k times one look's delta, and after at least one look the pitch is within range |
| Controls.LookTimesSaturates | src/server/PointerLockControls.ts:42 | repeated downward motion pins the pitch at the lower bound rather than wrapping |
| Controls.Direction | src/server/PointerLockControls.ts:101-129 | definition: the vector a move runs along, read from the matrix: −col2 (lines 101-102), col0 (115), −col1 (128-129), negated for the opposite axes; stated by `MovedAlong` |
| Controls.Moved | src/server/PointerLockControls.ts:98-136 | definition: the six move handlers, backward, left and down delegating with −distance as the code does; stated by `MovedAlong`, `OppositeNegates`, `MoveThenOpposite` |
| Controls.MovedAlong | src/server/PointerLockControls.ts:98-132 | each move adds distance·v to the position: forward v = −col2, right v = col0, up v = −col1, and backward, left and down move along the negated vector |
| Controls.OppositeNegates | src/server/PointerLockControls.ts:108-136 | moving backward, left or down by d is moving forward, right or up by −d |
| Controls.MoveThenOpposite | src/server/PointerLockControls.ts:108-110 | a move followed by the opposite move by the same distance restores the position exactly |
| Controls.MoveThenOppositeAcross | src/server/PointerLockControls.ts:98-136 | a move over one matrix and the opposite move over another end displaced by distance·(first vector − second vector) |
| Controls.MoveZero | src/server/PointerLockControls.ts:104 | a move by distance 0 leaves the position unchanged |
| Controls.MovedAllDrift | src/server/PointerLockControls.ts:98-136 | a sequence of moves by d shifts the position by d times the net basis combination: forwards minus backwards, rights minus lefts, ups minus downs |
| Controls.BalancedMovesCancel | src/server/PointerLockControls.ts:98-136 | moves in which every axis occurs as often as its opposite restore the position, whatever the order |
| Controls.Camera.constructor | src/server/scene.ts:26-27 | a new camera is at the origin, level, with the identity matrix |
| Controls.PointerLockControls.constructor | src/server/PointerLockControls.ts:26-29 | new controls are unlocked and have subscribed their nine handlers on the socket |
| Controls.PointerLockControls.OnMouseMove | src/server/PointerLockControls.ts:31-45 | while unlocked nothing changes; while locked the orientation becomes `Look` of the old one, and position and matrix stay |
| Controls.PointerLockControls.Lock | src/server/PointerLockControls.ts:47-50 | one more mousemove listener, and the flag set |
| Controls.PointerLockControls.Unlock | src/server/PointerLockControls.ts:52-55 | one mousemove listener fewer, and the flag cleared |
| Controls.PointerLockControls.OnPointerlockError | src/server/PointerLockControls.ts:57-60 | the handlers `connect` subscribed come off; the mousemove listeners and the flag stay |
| Controls.PointerLockControls.Connect | src/server/PointerLockControls.ts:62-72 | lock, unlock, pointerlockerror and the six move handlers are subscribed |
| Controls.PointerLockControls.Disconnect | src/server/PointerLockControls.ts:74-84 | those nine handlers are unsubscribed, one each, and nothing else changes |
| Controls.PointerLockControls.Dispose | src/server/PointerLockControls.ts:86-88 | the same as disconnect |
| Controls.PointerLockControls.MoveForward | src/server/PointerLockControls.ts:98-106 | only the position changes, along −col2 of the current matrix |
| Controls.PointerLockControls.MoveBackward | src/server/PointerLockControls.ts:108-110 | only the position changes, as a forward move by −distance |
| Controls.PointerLockControls.MoveRight | src/server/PointerLockControls.ts:112-119 | only the position changes, along col0 |
| Controls.PointerLockControls.MoveLeft | src/server/PointerLockControls.ts:121-123 | only the position changes, as a right move by −distance |
| Controls.PointerLockControls.MoveUp | src/server/PointerLockControls.ts:125-132 | only the position changes, along −col1 |
| Controls.PointerLockControls.MoveDown | src/server/PointerLockControls.ts:134-136 | only the position changes, as an up move by −distance |
| Controls.PointerLockControls.Reset | src/server/PointerLockControls.ts:138-141 | the position becomes exactly the given point, the orientation level; the matrix is not refreshed |
| SessionModel.SubscriptionCount | src/server/PointerLockControls.ts:62-84 | in the listener table of a session, each control handler is subscribed once when connected and never otherwise, `loadScene` once, and mousemove `mouseMoves` times; each `lock` and `unlock` message changes that count by one step, as `StepLock` and `StepUnlock` state: a `lock` on a connected session adds one mousemove listener, an `unlock` removes one if there is one, and on a disconnected session both change nothing |
| SessionModel.Initial | src/server/scene.ts:17-35 | definition of a new session; stated by `InitialWellFormed` and matched by `Scene.RendererScene.constructor` |
| SessionModel.AfterLoad | src/server/scene.ts:87-98 | definition of `loadScene`'s effect per outcome; stated by `FailedLoad`, `SuccessfulLoad`, `LoadWellFormed` |
| SessionModel.Handle | src/server/PointerLockControls.ts:31-141 | definition of one listener call per message; stated by the `Step…` lemmas and matched by `Scene.RendererScene.HandleOnce` |
| SessionModel.Step | src/server/scene.ts:28-30 | definition of emitting a message to the listeners registered at lines 28-30 and in `connect`. Two facts come from socket.io's EventEmitter `emit`, whose code is not part of this model: the handler runs once per listener registered for the message's name, and that number is fixed when the emit starts, so a `lock` handler adding a listener does not make the current emit call it. Stated by `StepOnce` and the `Step…` lemmas |
| SessionModel.Run | src/server/scene.ts:28-30 | definition of messages in the order received, each one emitted as `Step` says (the once-per-listener rule and the fixed count come from EventEmitter's `emit`, not from these lines); stated by `RunWellFormed`, `RunMoves`, `RunCountsLoads`, `LoadsAccumulate` |
| SessionModel.InitialListeners | src/server/scene.ts:28-30 | the constructor's subscriptions are the nine control handlers plus `loadScene` |
| SessionModel.InitialWellFormed | src/server/scene.ts:17-35 | a new session is well formed and connected, has only the light in its scene, no interval and is not loaded |
| SessionModel.ControlCount | src/server/PointerLockControls.ts:62-84 | in every reachable state each control handler is subscribed once while connected, never after `pointerlockerror` |
| SessionModel.RepeatMouseMove | src/server/PointerLockControls.ts:31-45 | k mousemove listener calls are k looks while locked, nothing while unlocked |
| SessionModel.StepLock | src/server/PointerLockControls.ts:47-50 | `lock` on a connected session adds one mousemove listener and sets the flag; after `pointerlockerror` it does nothing |
| SessionModel.StepUnlock | src/server/PointerLockControls.ts:52-55 | `unlock` on a connected session removes one mousemove listener and clears the flag; after `pointerlockerror` it does nothing |
| SessionModel.StepPointerLockError | src/server/PointerLockControls.ts:57-84 | `pointerlockerror` leaves a table with no control handlers and the same mousemove listeners; nothing else changes |
| SessionModel.StepMove | src/server/PointerLockControls.ts:98-136 | a move message on a connected session moves the camera whatever the lock flag; after `pointerlockerror` it does nothing |
| SessionModel.StepLoad | src/server/scene.ts:30 | `loadScene` always has exactly one listener and has the effect of `AfterLoad` |
| SessionModel.StepUnlistened | src/server/PointerLockControls.ts:62-72 | `lockError`, `clientTimestamp`, `disconnect` and any unknown event change nothing in a session |
| SessionModel.LoadWellFormed | src/server/scene.ts:87-98 | a load, failed or not, keeps the session well formed |
| SessionModel.LockWellFormed | src/server/PointerLockControls.ts:47-50 | `lock` keeps the session well formed |
| SessionModel.UnlockWellFormed | src/server/PointerLockControls.ts:52-55 | `unlock` keeps the session well formed |
| SessionModel.PointerLockErrorWellFormed | src/server/PointerLockControls.ts:57-60 | `pointerlockerror` keeps the session well formed |
| SessionModel.MouseMoveWellFormed | src/server/PointerLockControls.ts:31-45 | mouse motion keeps the session well formed, in particular the pitch in range |
| SessionModel.StepWellFormed | src/server/PointerLockControls.ts:31-141 | every message keeps the well-formedness invariant: the listener table, pitch range, scene and interval bookkeeping |
| SessionModel.RunWellFormed | src/server/PointerLockControls.ts:31-141 | every sequence of messages keeps a session well formed |
| SessionModel.StepMouseMove | src/server/PointerLockControls.ts:31-45 | mouse motion changes only the orientation; unlocked, nothing; locked, the yaw turns once per mousemove listener and the pitch stays in range |
| SessionModel.LockThenUnlock | src/server/PointerLockControls.ts:47-55 | `lock` then `unlock` restores the listener table exactly and leaves the session unlocked |
| SessionModel.LockConnected | src/server/PointerLockControls.ts:47-50 | `lock` leaves a connected session connected and well formed, with one more mousemove listener |
| SessionModel.LockTwiceLooksTwice | src/server/PointerLockControls.ts:47-50 | two `lock` messages subscribe mousemove twice, so one mousemove then turns the camera by two looks |
| SessionModel.DisconnectedIgnoresControls | src/server/PointerLockControls.ts:74-84 | after `pointerlockerror`, lock, unlock, pointerlockerror and move messages do nothing |
| SessionModel.ErrorDisconnects | src/server/PointerLockControls.ts:57-60 | `pointerlockerror` disconnects the controls and changes nothing but the listener table; the mousemove listeners stay |
| SessionModel.ErrorWhileLocked | src/server/PointerLockControls.ts:57-60 | a session locked at `pointerlockerror` can no longer be unlocked, and mouse motion keeps turning its camera |
| SessionModel.MoveThenOppositeStep | src/server/PointerLockControls.ts:108-110 | a move message and the opposite move by the same distance leave the session as it was |
| SessionModel.RunMoves | src/server/PointerLockControls.ts:98-136 | a sequence of move messages takes a connected session along all the moves in order, and does nothing to a disconnected one |
| SessionModel.BalancedRunCancels | src/server/PointerLockControls.ts:98-136 | move messages that pair up along every axis leave the session as it was |
| SessionModel.FailedLoad | src/server/scene.ts:89-92 | a load whose read or parse fails has still reset the camera to the origin and level orientation, and changes nothing else |
| SessionModel.SuccessfulLoad | src/server/scene.ts:92-97 | a successful load appends the object to the scene, sets `is_loaded`, appends one 100 ms interval and makes it `render_interval`; the camera is reset |
| SessionModel.Tick | src/server/scene.ts:100-101 | definition of a render tick: the renderer refreshes the matrix from the orientation; stated by `TickCurrent` and matched by `Scene.RendererScene.Render` |
| SessionModel.RunEvents | src/server/scene.ts:95-101 | definition of messages and render ticks in the order they happen, a tick being the 100 ms interval's `render`; stated by `TicksBetweenMovesInvisible`, `BalancedEventsCancel`, `MoveAcrossTick`, and matched by `Scene.RendererScene.Play` |
| SessionModel.TickCurrent | src/server/scene.ts:100-101 | after a tick the matrix is current; a tick on a current matrix changes nothing; a tick changes nothing but the matrix |
| SessionModel.TicksBetweenMovesInvisible | src/server/scene.ts:95-101 | with the matrix current at the start, render ticks among move messages change nothing: the run equals the run of its messages, and the matrix stays current |
| SessionModel.BalancedEventsCancel | src/server/scene.ts:95-101 | balanced move messages with ticks among them leave the session as it was, when the matrix starts current |
| SessionModel.MoveAcrossTick | src/server/PointerLockControls.ts:98-110 | a tick between a move and its opposite makes the second move run along the refreshed vector, so the camera ends displaced by the difference; with a current matrix the session is back as it was |
| SessionModel.RunExtends | src/server/scene.ts:93-97 | no message refreshes the camera matrix, removes a scene object or clears an interval |
| SessionModel.RunCountsLoads | src/server/scene.ts:95-97 | after a message sequence the number of intervals has grown by the number of successful loads in it |
| SessionModel.LoadsAccumulate | src/server/scene.ts:93-97 | after n successful loads there are n more intervals and n more scene objects; once there has been one, the session is loaded and `render_interval` is the last interval started |
| Scene.FrameReadback | src/server/scene.ts:103-104 | definition of the `readPixels(0, 0, width, height)` call and its width·height·4-byte buffer; stated by `ReadbackFitsFrame` and returned by `Scene.RendererScene.Render` |
| Scene.ReadbackFitsFrame | src/server/scene.ts:103-104 | the buffer has exactly width·height·4 bytes: every pixel's four bytes fit, and the last pixel ends at the last byte |
| Scene.RendererScene.constructor | src/server/scene.ts:17-35 | a new session's view is `Initial` on top of the socket's earlier listeners: unlocked, at the origin, only the light, not loaded, no interval |
| Scene.RendererScene.AddLight | src/server/scene.ts:37-41 | the light is appended to the scene's children and nothing else changes |
| Scene.RendererScene.LoadScene | src/server/scene.ts:87-98 | the session moves to `AfterLoad` of the loader's outcome, and the handler fails exactly when reading or parsing does |
| Scene.RendererScene.Render | src/server/scene.ts:100-104 | the view moves as `Tick` says: only the camera matrix changes, refreshed from the orientation; the read-back is the full frame |
| Scene.RendererScene.HandleOnce | src/server/scene.ts:28-30 | one listener call moves the view as `Handle` says |
| Scene.RendererScene.Lock | src/server/PointerLockControls.ts:47-50 | the lock handler adds a mousemove listener and sets the flag, nothing else |
| Scene.RendererScene.Unlock | src/server/PointerLockControls.ts:52-55 | the unlock handler removes a mousemove listener and clears the flag, nothing else |
| Scene.RendererScene.OnPointerLockError | src/server/PointerLockControls.ts:57-60 | the error handler removes the control handlers, nothing else |
| Scene.RendererScene.OnMouseMove | src/server/PointerLockControls.ts:31-45 | the mousemove handler looks while locked and does nothing otherwise |
| Scene.RendererScene.Move | src/server/PointerLockControls.ts:98-136 | the move handler for an axis moves only the position |
| Scene.RendererScene.Dispatch | src/server/scene.ts:28-30 | emitting a message runs each listener registered for its name once, and moves the view as `Step` says |
| Scene.RendererScene.DispatchAll | src/server/scene.ts:28-30 | messages delivered in order move the view as `Run` says |
| Scene.RendererScene.Play | src/server/scene.ts:95-104 | messages and render ticks in the order they happen move the view as `RunEvents` says |
| Server.App.constructor | src/server/server.ts:16-18 | the registry starts empty with frame size 1280 by 720 |
| Server.App.Connect | src/server/server.ts:28-29 | a fresh session at the server's size, in its initial state, is registered under the id, replacing any earlier entry; the other entries are untouched |
| Server.App.NewSession | src/server/server.ts:29 | the new session is fresh, on a socket with that id, at the server's size, in the initial state |
| Server.App.Disconnect | src/server/server.ts:31-37 | the entry is deleted if present and the map is unchanged otherwise; the removed session itself is not touched, so its intervals keep running |
| Server.DisconnectTwice | src/server/server.ts:31-37 | a second disconnect for the same id changes nothing |
| Server.App.ClientTimestamp | src/server/server.ts:39-43 | a response comes back exactly when the id is registered, and it carries t unchanged |
| Server.App.Receive | src/server/server.ts:28-43 | disconnect and timestamps go to the server's listeners and touch no session (no session is in the frame for them): the entry is deleted or t echoed; other messages step only the addressed session, as `Step` says; every other session is untouched |
| Server.App.Forward | src/server/server.ts:28-29 | emitting on one session's socket steps that session and leaves every other session's view unchanged |
| Client.KeyAxis | src/client/client.ts:55-74 | definition of the key table; stated by `KeyMessage`, `EndToEnd.KeyTable` and `EndToEnd.KeyAxisInjective` |
| Client.KeyMessage | src/client/client.ts:54-76 | exactly the six move keys send a message; it is a move by 0.25 along the key's axis |
| Client.OppositeKeys | src/client/client.ts:54-76 | W/S, A/D and Q/E send opposite moves by the same distance |
| Client.Emits | src/client/client.ts:54-97 | one event reaching the document sends at most one message |
| Client.ShownImage | src/client/client.ts:33-48 | definition of the `byteLength` guard: an empty buffer leaves the canvas, any other replaces it; stated over many messages by `EmptyImagesKeepCanvas` and `ShowsLastNonEmpty`, and matched by `Client.ClientPage.OnImage` |
| Client.ShownAfter | src/client/client.ts:33-48 | definition of the `image` handler run once per message, in the order the messages arrive; stated by `EmptyImagesKeepCanvas` and `ShowsLastNonEmpty` |
| Client.EmptyImagesKeepCanvas | src/client/client.ts:33-34 | `image` messages whose buffers are all empty leave the canvas showing what it showed before |
| Client.ShowsLastNonEmpty | src/client/client.ts:33-48 | after a run of `image` messages the canvas shows the last non-empty buffer, whatever came before it |
| Client.Latency | src/client/client.ts:50-52 | definition of `Date.now() - t`; stated by `Client.ClientPage.OnTimestampResponse` and, for the whole round trip, by `EndToEnd.TimestampRoundTrip` |
| Client.ClientPage.constructor | src/client/client.ts:3 | the page starts unlocked, listening only for keys, showing nothing, having sent nothing |
| Client.ClientPage.Attach | src/client/client.ts:99-103 | the pointer-lock change and error listeners go on; nothing else changes |
| Client.ClientPage.Detach | src/client/client.ts:105-109 | the pointer-lock change and error listeners come off; the lock flag is not touched |
| Client.ClientPage.OnPointerLockChange | src/client/client.ts:83-93 | when the canvas owns the lock: `lock` sent, flag set, mousemove listener on; otherwise `unlock` sent, listener off, flag cleared |
| Client.ClientPage.Deliver | src/client/client.ts:54-97 | an event runs only a listener that is on, and sends what `Emits` says; only a pointer-lock change changes the flag and the listeners |
| Client.ClientPage.OnImage | src/client/client.ts:33-48 | the canvas shows `ShownImage` of the buffer, and nothing else changes |
| Client.ClientPage.OnTimestampResponse | src/client/client.ts:50-52 | the latency shown becomes now − t, and nothing else changes |
| Client.ClientPage.OnTimerTick | src/client/client.ts:15-19 | one tick sends `clientTimestamp` with the current time |
| Client.MouseMoveSentIffLocked | src/client/client.ts:78-93 | mouse motion is sent exactly while the page is locked |
| Client.LockFailureSendsLockError | src/client/client.ts:95-97 | a pointer-lock failure sends only `lockError`, which is not the `pointerlockerror` the server listens for |
| EndToEnd.KeysSentAreMoves | src/client/client.ts:54-76 | key presses send one move by 0.25 per move key, in the order pressed, and nothing for other keys |
| EndToEnd.KeyAxisInjective | src/client/client.ts:54-76 | each move key stands for its own axis |
| EndToEnd.KeyAxesCount | src/client/client.ts:54-76 | each axis occurs among the sent moves as often as its key among the presses |
| EndToEnd.OppositeKeysCancel | src/client/client.ts:54-76 | W then S (and the other opposite pairs, either order) sent to a session leave it as it was |
| EndToEnd.BalancedKeysCancel | src/client/client.ts:54-76 | any key presses with as many W as S, A as D and Q as E leave a session as it was |
| EndToEnd.BalancedKeysCancelAcrossTicks | src/client/client.ts:54-76 | balanced key presses leave a session as it was also with render ticks among the moves, when the matrix was current at the start |
| EndToEnd.LockFailureIgnored | src/client/client.ts:95-97 | a pointer-lock failure on the page changes nothing in the server's session |
| EndToEnd.LockCycle | src/client/client.ts:83-93 | the canvas taking and then losing the lock returns a connected session to its listener table, unlocked |
| EndToEnd.TimestampRoundTrip | src/server/server.ts:39-43 | one timer tick at t0 sends `clientTimestamp(t0)` (src/client/client.ts:16-18); the server echoes it exactly when the socket is registered, and then the page shows now − t0 (src/client/client.ts:50-52); without a reply the latency shown stays |

## Left out

- Floating point: all arithmetic is exact over `real`, so rounding in the look and move arithmetic is not modelled.
- The Euler and quaternion round trip of `onMouseMove` and `reset` is taken as the identity. The orientation is kept as yaw and pitch, and yaw is never wrapped into (−π, π].
- The camera matrix is an opaque basis. The renderer's refresh of it from the orientation is the `rotation` parameter of `Render` and `Tick`, and nothing proves that the matrix tracks the orientation.
- `minPolarAngle` and `maxPolarAngle` are constants at their defaults, because nothing in the system assigns them. `Clamp` is proved for any bounds.
- A mousemove field counts as 0 when it is missing. NaN, which `|| 0` also maps to 0, does not exist over `real`.
- `getObject` and `getDirection` are left out: nothing in the system calls them.
- File reading and FBX parsing are the `loader` parameter, which returns an outcome that may fail. `path.resolve` is folded into it.
- A thrown exception is modelled as the handler stopping at that point: `LoadScene` returns `failed`, and the session keeps the state reached so far (the camera already reset). In the system, socket.io runs listeners outside any caller that could catch, so a throw from `readFileSync` or `parse` is an uncaught exception, which by Node's default ends the whole server process, every session with it. That is not modelled.
- Every `move…`, `mousemove` and `loadScene` message is assumed to carry its payload object with its field. A message without a payload object makes the handler's destructuring (or, for `mousemove` while locked, `event.movementX`) throw a TypeError; that is not modelled. A payload object without its field is not modelled either: a `move…` message with `{}` makes `distance` undefined, so `addScaledVector` sets every camera coordinate to NaN (src/server/PointerLockControls.ts:98-106); a `loadScene` message with `{}` makes `path.resolve` throw after the camera has been reset (src/server/scene.ts:87-90). A `mousemove` payload without `movementX` or `movementY` is modelled, by `OrZero`.
- The `console.log` and `console.error` calls are left out: they change no state.
- The loader is one fixed function of the url, so within a run two loads of the same url get the same outcome; a file that appears or changes between loads is not expressed.
- WebGL rendering, the pixel contents, Jimp's PNG encoding and the `image` emit are left out. A render tick is only its matrix refresh and the read-back region and buffer size.
- `setInterval` timing is left out. A started interval is an entry in `intervals` with its period. Its ticks are `RenderTick` events placed by the caller of `RunEvents`; nothing ties how many ticks happen, or when, to the number of intervals and their period.
- SessionModel.MoveThenOppositeStep holds for messages with no render tick between them; `MoveAcrossTick` gives the result when a tick with a changed orientation falls between.
- SessionModel.BalancedRunCancels holds for messages with no render tick among them; `BalancedEventsCancel` extends it to runs with ticks when the matrix starts current.
- EndToEnd.OppositeKeysCancel holds when no render tick falls between the two moves; see `SessionModel.MoveAcrossTick`.
- EndToEnd.BalancedKeysCancel holds for messages with no render tick among them; `BalancedKeysCancelAcrossTicks` extends it to runs with ticks when the matrix starts current. After a mousemove has turned the camera and before the next tick the matrix is stale, and then balanced keys need not cancel.
- The page's timestamp timer: one tick is `OnTimerTick`. Its one-second period is not modelled, and neither is the fact that every `connect`, reconnections included, starts another interval that is never cleared.
- The commented-out `buildScene` and the commented-out constructor interval are not modelled, since they do not run.
- The socket.io transport, express static hosting, the JSDOM bootstrap and `Date.now` are left out. Times are parameters (`now`).
- The server's own `disconnect` and `clientTimestamp` listeners are methods of `App` rather than entries in the socket's listener table. `Receive` routes to them.
- An unknown event name (`Other`) is assumed not to coincide with one of the protocol's own names.
- The page's DOM work is left out: canvas resize, the vertical flip in `drawImage`, Blob and object-URL handling, and the lock button wiring. `requestPointerLock` and `exitPointerLock` are left out too; the browser's answer is the `PointerLockChange` or `PointerLockFailed` event.
- Client.ClientPage.Detach: `exitPointerLock` would be followed by a `pointerlockchange` event, but once the listener is removed the page never sees it. The model therefore leaves the flag as it was.
