/**
 * The state of one connection's session as a value, and what each incoming event
 * does to it: the specification the `RendererScene` class is proved against.
 *
 * A session's state is its socket's listener table, the controller's lock flag,
 * the camera, the scene's top-level children, the loaded flag and the render
 * intervals it has started. An event is delivered to every listener registered
 * for its name when it arrives (the count is taken before any listener runs, as
 * an event emitter does), so `Step` applies the one-listener effect `Handle`
 * that many times.
 */
module SessionModel {
  import opened Wrappers
  import opened Geometry
  import opened Protocol
  import opened Controls

  /** An object `FBXLoader.parse` returned; its content is not modelled. */
  datatype Object3D = Object3D(handle: nat)

  /** A top-level child of the Three.js scene. */
  datatype SceneNode =
    | PointLight(color: int, intensity: real, position: Vec3)
    | Model(obj: Object3D)

  /** The light `addLight` puts in every scene. */
  const LIGHT: SceneNode := PointLight(0xffffff, 1.0, Vec3(5000.0, 50000.0, 50000.0))

  /** The period of the render interval `loadScene` starts. */
  const RENDER_PERIOD_MS: nat := 100

  /** What reading and parsing a scene file gives: either step may throw. */
  datatype LoadOutcome = ReadFailed | ParseFailed | Parsed(obj: Object3D)

  /** The file system and the FBX parser together, as a function of the requested url. */
  type Loader = string -> LoadOutcome

  datatype SessionView = SessionView(
    listeners: multiset<EventName>,  // the socket's listener table
    isLocked: bool,                  // PointerLockControls.isLocked
    position: Vec3,                  // camera.position
    orientation: Orientation,        // camera.quaternion, as Euler angles
    matrix: Basis,                   // camera.matrix, as last refreshed by the renderer
    children: seq<SceneNode>,        // scene.children
    isLoaded: bool,                  // RendererScene.is_loaded
    intervals: seq<nat>,             // periods of the intervals started, none of them cleared
    renderInterval: Option<nat>)     // render_interval, as an index into intervals

  /** The listener table of a session whose control handlers are (or are not) subscribed. */
  function Subscriptions(connected: bool, mouseMoves: nat): multiset<EventName> {
    multiset{LoadSceneEv} + (if connected then CONNECT_HANDLERS else multiset{}) +
    multiset{}[MouseMoveEv := mouseMoves]
  }

  predicate IsControlEvent(e: EventName) {
    e.LockEv? || e.UnlockEv? || e.PointerLockErrorEv? || e.MoveEv?
  }

  lemma SubscriptionCount(connected: bool, mouseMoves: nat, e: EventName)
    ensures Subscriptions(connected, mouseMoves)[e] ==
            if e == LoadSceneEv then 1
            else if e == MouseMoveEv then mouseMoves
            else if IsControlEvent(e) && connected then 1
            else 0
  {
    var mouse := multiset{}[MouseMoveEv := mouseMoves];
    assert mouse[e] == if e == MouseMoveEv then mouseMoves else 0;
    assert CONNECT_HANDLERS[e] == if IsControlEvent(e) then 1 else 0 by {
      match e
      case MoveEv(a) => match a {
        case Forward => case Backward => case Left => case Right => case Up => case Down =>
      }
      case _ =>
    }
  }

  lemma SubscriptionsAddMouseMove(connected: bool, mouseMoves: nat)
    ensures Subscriptions(connected, mouseMoves) + multiset{MouseMoveEv} == Subscriptions(connected, mouseMoves + 1)
  {
    forall e ensures (Subscriptions(connected, mouseMoves) + multiset{MouseMoveEv})[e] ==
                     Subscriptions(connected, mouseMoves + 1)[e] {
      SubscriptionCount(connected, mouseMoves, e);
      SubscriptionCount(connected, mouseMoves + 1, e);
    }
  }

  lemma SubscriptionsRemoveMouseMove(connected: bool, mouseMoves: nat)
    ensures Subscriptions(connected, mouseMoves) - multiset{MouseMoveEv} ==
            Subscriptions(connected, if mouseMoves == 0 then 0 else mouseMoves - 1)
  {
    var after := if mouseMoves == 0 then 0 else mouseMoves - 1;
    forall e ensures (Subscriptions(connected, mouseMoves) - multiset{MouseMoveEv})[e] ==
                     Subscriptions(connected, after)[e] {
      SubscriptionCount(connected, mouseMoves, e);
      SubscriptionCount(connected, after, e);
    }
  }

  lemma SubscriptionsRemoveControls(connected: bool, mouseMoves: nat)
    ensures Subscriptions(connected, mouseMoves) - CONNECT_HANDLERS == Subscriptions(false, mouseMoves)
  {
    forall e ensures (Subscriptions(connected, mouseMoves) - CONNECT_HANDLERS)[e] ==
                     Subscriptions(false, mouseMoves)[e] {
      SubscriptionCount(connected, mouseMoves, e);
      SubscriptionCount(false, mouseMoves, e);
    }
  }

  /** A new session's listener table: the control handlers and `loadScene`. */
  lemma InitialListeners(before: multiset<EventName>)
    ensures before + CONNECT_HANDLERS + multiset{LoadSceneEv} == before + Subscriptions(true, 0)
  {
    assert multiset{}[MouseMoveEv := 0] == multiset{};
  }

  /** A new session: control handlers and `loadScene` subscribed, unlocked, at the origin, not loaded. */
  function Initial(): SessionView {
    SessionView(Subscriptions(true, 0), false, ORIGIN, LEVEL, IDENTITY, [LIGHT], false, [], None)
  }

  /**
   * `loadScene`: the camera is reset before the file is read; only when reading and
   * parsing both succeed is the object added, the flag set and an interval started.
   */
  function AfterLoad(v: SessionView, outcome: LoadOutcome): SessionView {
    var reset := v.(position := ORIGIN, orientation := LEVEL);
    match outcome
    case Parsed(obj) =>
      reset.(children := v.children + [Model(obj)], isLoaded := true,
             intervals := v.intervals + [RENDER_PERIOD_MS], renderInterval := Some(|v.intervals|))
    case _ => reset
  }

  /** The effect of one listener call for `msg`. */
  function Handle(v: SessionView, msg: InMsg, loader: Loader): SessionView {
    match msg
    case Lock => v.(listeners := v.listeners + multiset{MouseMoveEv}, isLocked := true)
    case Unlock => v.(listeners := v.listeners - multiset{MouseMoveEv}, isLocked := false)
    case PointerLockError => v.(listeners := v.listeners - CONNECT_HANDLERS)
    case MouseMove(mx, my) => if v.isLocked then v.(orientation := Look(v.orientation, mx, my)) else v
    case Move(axis, distance) => v.(position := Moved(v.position, v.matrix, axis, distance))
    case LoadScene(url) => AfterLoad(v, loader(url))
    case _ => v
  }

  /** `k` listener calls for `msg`, one after another. */
  function Repeat(v: SessionView, msg: InMsg, loader: Loader, k: nat): SessionView {
    if k == 0 then v else Handle(Repeat(v, msg, loader, k - 1), msg, loader)
  }

  /** Delivering `msg`: once per listener registered for its name. */
  function Step(v: SessionView, msg: InMsg, loader: Loader): SessionView {
    Repeat(v, msg, loader, v.listeners[NameOf(msg)])
  }

  /** Delivering `msgs` in the order received. */
  function Run(v: SessionView, msgs: seq<InMsg>, loader: Loader): SessionView
    decreases |msgs|
  {
    if msgs == [] then v else Step(Run(v, msgs[..|msgs| - 1], loader), msgs[|msgs| - 1], loader)
  }

  /** The control handlers are subscribed (no `pointerlockerror` has been received). */
  predicate Connected(v: SessionView) {
    v.listeners[LockEv] > 0
  }

  /**
   * The listener table holds `loadScene`, the control handlers once each or not at all,
   * and a mousemove handler whenever the controls are locked.
   */
  ghost predicate ListenersOk(listeners: multiset<EventName>, isLocked: bool) {
    && listeners == Subscriptions(listeners[LockEv] > 0, listeners[MouseMoveEv])
    && (isLocked ==> listeners[MouseMoveEv] > 0)
  }

  /** The pitch lies in the clamp range. */
  ghost predicate PitchOk(o: Orientation) {
    PITCH_MIN <= o.pitch <= PITCH_MAX
  }

  /**
   * The light comes first and is followed by one loaded object per render interval;
   * the session is loaded once an interval runs, and `render_interval` is the last one.
   */
  ghost predicate SceneOk(children: seq<SceneNode>, intervals: seq<nat>, isLoaded: bool, renderInterval: Option<nat>) {
    && |children| == |intervals| + 1
    && children[0] == LIGHT
    && (forall i | 1 <= i < |children| :: children[i].Model?)
    && (forall i | 0 <= i < |intervals| :: intervals[i] == RENDER_PERIOD_MS)
    && isLoaded == (|intervals| > 0)
    && renderInterval == (if intervals == [] then None else Some(|intervals| - 1))
  }

  /** What holds of every state a session reaches. */
  ghost predicate WellFormed(v: SessionView) {
    && ListenersOk(v.listeners, v.isLocked)
    && PitchOk(v.orientation)
    && SceneOk(v.children, v.intervals, v.isLoaded, v.renderInterval)
  }

  /** A fresh session is well formed and connected; it has one light, no timer and is not loaded. */
  lemma InitialWellFormed()
    ensures WellFormed(Initial()) && Connected(Initial())
    ensures Initial().children == [LIGHT] && Initial().intervals == [] && !Initial().isLoaded
  {
    SubscriptionCount(true, 0, LockEv);
    SubscriptionCount(true, 0, MouseMoveEv);
    DefaultPitchRange();
  }

  /** Mouse motion: one look per listener while locked, nothing otherwise. */
  lemma {:induction false} RepeatMouseMove(v: SessionView, mx: Option<real>, my: Option<real>, loader: Loader, k: nat)
    ensures Repeat(v, MouseMove(mx, my), loader, k) ==
            if v.isLocked then v.(orientation := LookTimes(v.orientation, mx, my, k)) else v
  {
    if k > 0 {
      RepeatMouseMove(v, mx, my, loader, k - 1);
    }
  }

  /** In a well-formed state each control handler is subscribed once when connected, never otherwise. */
  lemma ControlCount(v: SessionView, e: EventName)
    requires WellFormed(v) && IsControlEvent(e)
    ensures v.listeners[e] == if Connected(v) then 1 else 0
  {
    SubscriptionCount(Connected(v), v.listeners[MouseMoveEv], e);
  }

  /** A message whose name has one listener has the effect of one call; with none, no effect. */
  lemma StepOnce(v: SessionView, msg: InMsg, loader: Loader)
    requires v.listeners[NameOf(msg)] <= 1
    ensures Step(v, msg, loader) == if v.listeners[NameOf(msg)] == 1 then Handle(v, msg, loader) else v
  {
    if v.listeners[NameOf(msg)] == 1 {
      assert Repeat(v, msg, loader, 1) == Handle(Repeat(v, msg, loader, 0), msg, loader);
    }
  }

  /** `lock` while connected adds one mousemove listener and sets the lock flag; otherwise nothing. */
  lemma StepLock(v: SessionView, loader: Loader)
    requires WellFormed(v)
    ensures Step(v, Lock, loader) ==
            if Connected(v) then v.(listeners := v.listeners + multiset{MouseMoveEv}, isLocked := true) else v
  {
    ControlCount(v, LockEv);
    StepOnce(v, Lock, loader);
  }

  /** `unlock` while connected removes one mousemove listener and clears the lock flag; otherwise nothing. */
  lemma StepUnlock(v: SessionView, loader: Loader)
    requires WellFormed(v)
    ensures Step(v, Unlock, loader) ==
            if Connected(v) then v.(listeners := v.listeners - multiset{MouseMoveEv}, isLocked := false) else v
  {
    ControlCount(v, UnlockEv);
    StepOnce(v, Unlock, loader);
  }

  /**
   * `pointerlockerror` while connected unsubscribes the control handlers and nothing else:
   * the mousemove listeners and the lock flag stay as they were.
   */
  lemma StepPointerLockError(v: SessionView, loader: Loader)
    requires WellFormed(v)
    ensures Step(v, PointerLockError, loader) ==
            if Connected(v) then v.(listeners := Subscriptions(false, v.listeners[MouseMoveEv])) else v
  {
    ControlCount(v, PointerLockErrorEv);
    StepOnce(v, PointerLockError, loader);
    if Connected(v) {
      SubscriptionsRemoveControls(true, v.listeners[MouseMoveEv]);
    }
  }

  /** A move command while connected translates the camera, whatever the lock flag; otherwise nothing. */
  lemma StepMove(v: SessionView, axis: Axis, distance: real, loader: Loader)
    requires WellFormed(v)
    ensures Step(v, Move(axis, distance), loader) ==
            if Connected(v) then v.(position := Moved(v.position, v.matrix, axis, distance)) else v
  {
    ControlCount(v, MoveEv(axis));
    StepOnce(v, Move(axis, distance), loader);
  }

  /** `loadScene` always reaches its one listener. */
  lemma StepLoad(v: SessionView, url: string, loader: Loader)
    requires WellFormed(v)
    ensures Step(v, LoadScene(url), loader) == AfterLoad(v, loader(url))
  {
    SubscriptionCount(Connected(v), v.listeners[MouseMoveEv], LoadSceneEv);
    StepOnce(v, LoadScene(url), loader);
  }

  /** Events the session has no listener for change nothing, among them the client's `lockError`. */
  lemma StepUnlistened(v: SessionView, msg: InMsg, loader: Loader)
    requires WellFormed(v)
    requires msg.LockError? || msg.ClientTimestamp? || msg.Disconnect? || msg.Other?
    ensures Step(v, msg, loader) == v
  {
    UnlistenedCount(v.listeners, v.isLocked, NameOf(msg));
    assert Step(v, msg, loader) == Repeat(v, msg, loader, 0);
  }

  lemma UnlistenedCount(listeners: multiset<EventName>, isLocked: bool, e: EventName)
    requires ListenersOk(listeners, isLocked)
    requires e.LockErrorEv? || e.ClientTimestampEv? || e.DisconnectEv? || e.OtherEv?
    ensures listeners[e] == 0
  {
    SubscriptionCount(listeners[LockEv] > 0, listeners[MouseMoveEv], e);
  }

  lemma LoadWellFormed(v: SessionView, outcome: LoadOutcome)
    requires WellFormed(v)
    ensures WellFormed(AfterLoad(v, outcome))
  {
    DefaultPitchRange();
    var u := AfterLoad(v, outcome);
    if outcome.Parsed? {
      forall i | 1 <= i < |u.children| ensures u.children[i].Model? {
        if i < |v.children| {
          assert u.children[i] == v.children[i];
        }
      }
    }
  }

  /** `lock` on connected controls keeps the table well formed and the controls connected. */
  lemma LockListeners(listeners: multiset<EventName>, isLocked: bool)
    requires ListenersOk(listeners, isLocked) && listeners[LockEv] > 0
    ensures ListenersOk(listeners + multiset{MouseMoveEv}, true)
    ensures (listeners + multiset{MouseMoveEv})[LockEv] == listeners[LockEv]
  {
    var m := listeners[MouseMoveEv];
    SubscriptionsAddMouseMove(true, m);
    SubscriptionCount(true, m + 1, LockEv);
    SubscriptionCount(true, m + 1, MouseMoveEv);
  }

  /** `unlock` on connected controls keeps the table well formed and the controls connected. */
  lemma UnlockListeners(listeners: multiset<EventName>, isLocked: bool)
    requires ListenersOk(listeners, isLocked) && listeners[LockEv] > 0
    ensures ListenersOk(listeners - multiset{MouseMoveEv}, false)
    ensures (listeners - multiset{MouseMoveEv})[LockEv] == listeners[LockEv]
  {
    var m := listeners[MouseMoveEv];
    SubscriptionsRemoveMouseMove(true, m);
    var after := if m == 0 then 0 else m - 1;
    SubscriptionCount(true, after, LockEv);
    SubscriptionCount(true, after, MouseMoveEv);
  }

  /** Unsubscribing the control handlers keeps the table well formed, with the same mousemove handlers. */
  lemma DisconnectedListeners(mouseMoves: nat, isLocked: bool)
    requires isLocked ==> mouseMoves > 0
    ensures ListenersOk(Subscriptions(false, mouseMoves), isLocked)
    ensures Subscriptions(false, mouseMoves)[LockEv] == 0
    ensures Subscriptions(false, mouseMoves)[MouseMoveEv] == mouseMoves
  {
    SubscriptionCount(false, mouseMoves, LockEv);
    SubscriptionCount(false, mouseMoves, MouseMoveEv);
  }

  lemma LockWellFormed(v: SessionView, loader: Loader)
    requires WellFormed(v)
    ensures WellFormed(Step(v, Lock, loader))
  {
    StepLock(v, loader);
    if Connected(v) {
      LockListeners(v.listeners, v.isLocked);
    }
  }

  lemma UnlockWellFormed(v: SessionView, loader: Loader)
    requires WellFormed(v)
    ensures WellFormed(Step(v, Unlock, loader))
  {
    StepUnlock(v, loader);
    if Connected(v) {
      UnlockListeners(v.listeners, v.isLocked);
    }
  }

  lemma PointerLockErrorWellFormed(v: SessionView, loader: Loader)
    requires WellFormed(v)
    ensures WellFormed(Step(v, PointerLockError, loader))
  {
    StepPointerLockError(v, loader);
    DisconnectedListeners(v.listeners[MouseMoveEv], v.isLocked);
  }

  lemma MouseMoveWellFormed(v: SessionView, mx: Option<real>, my: Option<real>, loader: Loader)
    requires WellFormed(v)
    ensures WellFormed(Step(v, MouseMove(mx, my), loader))
  {
    RepeatMouseMove(v, mx, my, loader, v.listeners[MouseMoveEv]);
    if v.isLocked {
      LookTimesEffect(v.orientation, mx, my, v.listeners[MouseMoveEv]);
      assert PitchOk(LookTimes(v.orientation, mx, my, v.listeners[MouseMoveEv]));
    }
  }

  /** Every message keeps a session well formed. */
  lemma StepWellFormed(v: SessionView, msg: InMsg, loader: Loader)
    requires WellFormed(v)
    ensures WellFormed(Step(v, msg, loader))
  {
    match msg
    case Lock => LockWellFormed(v, loader);
    case Unlock => UnlockWellFormed(v, loader);
    case PointerLockError => PointerLockErrorWellFormed(v, loader);
    case MouseMove(mx, my) => MouseMoveWellFormed(v, mx, my, loader);
    case Move(axis, distance) => StepMove(v, axis, distance, loader);
    case LoadScene(url) =>
      StepLoad(v, url, loader);
      LoadWellFormed(v, loader(url));
    case _ => StepUnlistened(v, msg, loader);
  }

  /** Every sequence of messages keeps a session well formed. */
  lemma {:induction false} RunWellFormed(v: SessionView, msgs: seq<InMsg>, loader: Loader)
    requires WellFormed(v)
    ensures WellFormed(Run(v, msgs, loader))
    decreases |msgs|
  {
    if msgs != [] {
      RunWellFormed(v, msgs[..|msgs| - 1], loader);
      StepWellFormed(Run(v, msgs[..|msgs| - 1], loader), msgs[|msgs| - 1], loader);
    }
  }

  lemma RunSnoc(v: SessionView, msgs: seq<InMsg>, msg: InMsg, loader: Loader)
    ensures Run(v, msgs + [msg], loader) == Step(Run(v, msgs, loader), msg, loader)
  {
    assert (msgs + [msg])[..|msgs|] == msgs;
  }

  lemma RunPair(v: SessionView, a: InMsg, b: InMsg, loader: Loader)
    ensures Run(v, [a, b], loader) == Step(Step(v, a, loader), b, loader)
  {
    assert [a, b][..1] == [a];
    assert [a][..0] == [];
    assert Run(v, [a], loader) == Step(Run(v, [], loader), a, loader);
  }

  /** Mouse motion turns the camera only while locked, once per subscribed mousemove handler. */
  lemma StepMouseMove(v: SessionView, mx: Option<real>, my: Option<real>, loader: Loader)
    requires WellFormed(v)
    ensures var u := Step(v, MouseMove(mx, my), loader);
            && u == v.(orientation := u.orientation)
            && (!v.isLocked ==> u == v)
            && (v.isLocked ==>
                  && u.orientation.yaw == v.orientation.yaw - Times(v.listeners[MouseMoveEv], LookDelta(mx))
                  && PITCH_MIN <= u.orientation.pitch <= PITCH_MAX)
  {
    var k := v.listeners[MouseMoveEv];
    RepeatMouseMove(v, mx, my, loader, k);
    if v.isLocked {
      LookTimesEffect(v.orientation, mx, my, k);
    }
  }

  /** `lock` then `unlock` on a connected session puts back the listener table and clears the flag. */
  lemma LockThenUnlock(v: SessionView, loader: Loader)
    requires WellFormed(v) && Connected(v)
    ensures Run(v, [Lock, Unlock], loader) == v.(isLocked := false)
  {
    RunPair(v, Lock, Unlock, loader);
    LockConnected(v, loader);
    var u := Step(v, Lock, loader);
    StepUnlock(u, loader);
    AddThenRemove(v.listeners, MouseMoveEv);
  }

  lemma AddThenRemove(listeners: multiset<EventName>, e: EventName)
    ensures (listeners + multiset{e}) - multiset{e} == listeners
  {
    forall x ensures ((listeners + multiset{e}) - multiset{e})[x] == listeners[x] {
    }
  }

  /** `lock` on a connected session leaves it well formed and connected, with one more mousemove handler. */
  lemma LockConnected(v: SessionView, loader: Loader)
    requires WellFormed(v) && Connected(v)
    ensures var u := Step(v, Lock, loader);
            && u == v.(listeners := v.listeners + multiset{MouseMoveEv}, isLocked := true)
            && WellFormed(u) && Connected(u)
            && u.listeners[MouseMoveEv] == v.listeners[MouseMoveEv] + 1
  {
    StepLock(v, loader);
    LockWellFormed(v, loader);
    var u := Step(v, Lock, loader);
    assert u.listeners[LockEv] == v.listeners[LockEv];
  }

  /**
   * `lock` twice subscribes the mousemove handler twice, so from an unsubscribed
   * state one mousemove then turns the camera by two looks.
   */
  lemma LockTwiceLooksTwice(v: SessionView, mx: Option<real>, my: Option<real>, loader: Loader)
    requires WellFormed(v) && Connected(v) && v.listeners[MouseMoveEv] == 0
    ensures Run(v, [Lock, Lock, MouseMove(mx, my)], loader).orientation == LookTimes(v.orientation, mx, my, 2)
  {
    LockConnected(v, loader);
    var u := Step(v, Lock, loader);
    LockConnected(u, loader);
    var w := Step(u, Lock, loader);
    assert w.isLocked && w.orientation == v.orientation && w.listeners[MouseMoveEv] == 2;
    RepeatMouseMove(w, mx, my, loader, 2);
    var after := Step(w, MouseMove(mx, my), loader);
    assert after.orientation == LookTimes(v.orientation, mx, my, 2);
    RunPair(v, Lock, Lock, loader);
    RunSnoc(v, [Lock, Lock], MouseMove(mx, my), loader);
    assert [Lock, Lock] + [MouseMove(mx, my)] == [Lock, Lock, MouseMove(mx, my)];
    assert Run(v, [Lock, Lock, MouseMove(mx, my)], loader) == after;
  }

  /** After `pointerlockerror` the control messages are ignored. */
  lemma DisconnectedIgnoresControls(v: SessionView, msg: InMsg, loader: Loader)
    requires WellFormed(v) && !Connected(v)
    requires msg.Lock? || msg.Unlock? || msg.PointerLockError? || msg.Move?
    ensures Step(v, msg, loader) == v
  {
    match msg
    case Lock => StepLock(v, loader);
    case Unlock => StepUnlock(v, loader);
    case PointerLockError => StepPointerLockError(v, loader);
    case Move(axis, distance) => StepMove(v, axis, distance, loader);
  }

  /**
   * `pointerlockerror` disconnects the controls and leaves the mousemove handlers and
   * the lock flag: a session locked at that moment can no longer be unlocked, and
   * mouse motion keeps turning the camera.
   */
  lemma ErrorWhileLocked(v: SessionView, mx: Option<real>, my: Option<real>, loader: Loader)
    requires WellFormed(v) && v.isLocked
    ensures var u := Run(v, [PointerLockError, Unlock], loader);
            && !Connected(u) && u.isLocked
            && u.listeners[MouseMoveEv] == v.listeners[MouseMoveEv] > 0
            && Step(u, MouseMove(mx, my), loader).orientation ==
               LookTimes(v.orientation, mx, my, v.listeners[MouseMoveEv])
  {
    ErrorDisconnects(v, loader);
    var e := Step(v, PointerLockError, loader);
    DisconnectedIgnoresControls(e, Unlock, loader);
    RunPair(v, PointerLockError, Unlock, loader);
    assert Run(v, [PointerLockError, Unlock], loader) == e;
    RepeatMouseMove(e, mx, my, loader, e.listeners[MouseMoveEv]);
  }

  /** `pointerlockerror` disconnects the controls of a session and changes nothing else a handler reads. */
  lemma ErrorDisconnects(v: SessionView, loader: Loader)
    requires WellFormed(v)
    ensures var e := Step(v, PointerLockError, loader);
            && WellFormed(e) && !Connected(e)
            && e == v.(listeners := e.listeners)
            && e.listeners[MouseMoveEv] == v.listeners[MouseMoveEv]
  {
    StepPointerLockError(v, loader);
    DisconnectedListeners(v.listeners[MouseMoveEv], v.isLocked);
  }

  /** A move and the opposite move by the same distance put the camera back. */
  lemma MoveThenOppositeStep(v: SessionView, axis: Axis, distance: real, loader: Loader)
    requires WellFormed(v)
    ensures Run(v, [Move(axis, distance), Move(Opposite(axis), distance)], loader) == v
  {
    RunPair(v, Move(axis, distance), Move(Opposite(axis), distance), loader);
    StepMove(v, axis, distance, loader);
    var u := Step(v, Move(axis, distance), loader);
    StepWellFormed(v, Move(axis, distance), loader);
    StepMove(u, Opposite(axis), distance, loader);
    MoveThenOpposite(v.position, v.matrix, axis, distance);
  }

  /** One move message per axis, all by the same distance. */
  function MoveMsgs(axes: seq<Axis>, distance: real): seq<InMsg> {
    seq(|axes|, i requires 0 <= i < |axes| => Move(axes[i], distance))
  }

  /** Move messages take a connected session along the moves in order; a disconnected one ignores them. */
  lemma {:induction false} RunMoves(v: SessionView, axes: seq<Axis>, distance: real, loader: Loader)
    requires WellFormed(v)
    ensures Run(v, MoveMsgs(axes, distance), loader) ==
            if Connected(v) then v.(position := MovedAll(v.position, v.matrix, axes, distance)) else v
    decreases |axes|
  {
    if axes != [] {
      var init := axes[..|axes| - 1];
      var msgs := MoveMsgs(axes, distance);
      assert msgs[..|msgs| - 1] == MoveMsgs(init, distance);
      RunMoves(v, init, distance, loader);
      var u := Run(v, MoveMsgs(init, distance), loader);
      RunWellFormed(v, MoveMsgs(init, distance), loader);
      StepMove(u, axes[|axes| - 1], distance, loader);
    } else {
      assert MoveMsgs(axes, distance) == [];
    }
  }

  /** Moves that pair up along every axis leave the camera where it was. */
  lemma BalancedRunCancels(v: SessionView, axes: seq<Axis>, distance: real, loader: Loader)
    requires WellFormed(v)
    requires multiset(axes)[Forward] == multiset(axes)[Backward]
    requires multiset(axes)[Right] == multiset(axes)[Left]
    requires multiset(axes)[Up] == multiset(axes)[Down]
    ensures Run(v, MoveMsgs(axes, distance), loader) == v
  {
    RunMoves(v, axes, distance, loader);
    BalancedMovesCancel(v.position, v.matrix, axes, distance);
  }

  /** A failed read or parse still leaves the camera reset, and nothing else changed. */
  lemma FailedLoad(v: SessionView, url: string, loader: Loader)
    requires WellFormed(v) && !loader(url).Parsed?
    ensures Step(v, LoadScene(url), loader) == v.(position := ORIGIN, orientation := LEVEL)
  {
    StepLoad(v, url, loader);
  }

  /**
   * A successful load adds the object after everything already in the scene, sets the
   * loaded flag, and starts one more render interval, which becomes `render_interval`.
   */
  lemma SuccessfulLoad(v: SessionView, url: string, loader: Loader)
    requires WellFormed(v) && loader(url).Parsed?
    ensures var u := Step(v, LoadScene(url), loader);
            && u.children == v.children + [Model(loader(url).obj)]
            && u.isLoaded
            && u.intervals == v.intervals + [RENDER_PERIOD_MS]
            && u.renderInterval == Some(|u.intervals| - 1)
            && u.position == ORIGIN && u.orientation == LEVEL
            && u.listeners == v.listeners && u.isLocked == v.isLocked && u.matrix == v.matrix
  {
    StepLoad(v, url, loader);
  }

  /** `u` is `v` or a later state: same camera matrix, and the scene and timers only grew. */
  predicate Extends(u: SessionView, v: SessionView) {
    u.matrix == v.matrix && v.children <= u.children && v.intervals <= u.intervals
  }

  lemma HandleExtends(v: SessionView, msg: InMsg, loader: Loader)
    ensures Extends(Handle(v, msg, loader), v)
  {
  }

  lemma {:induction false} RepeatExtends(v: SessionView, msg: InMsg, loader: Loader, k: nat)
    ensures Extends(Repeat(v, msg, loader, k), v)
  {
    if k > 0 {
      RepeatExtends(v, msg, loader, k - 1);
      HandleExtends(Repeat(v, msg, loader, k - 1), msg, loader);
    }
  }

  /** No message refreshes the camera matrix, removes a scene object or clears a timer. */
  lemma {:induction false} RunExtends(v: SessionView, msgs: seq<InMsg>, loader: Loader)
    ensures Extends(Run(v, msgs, loader), v)
    decreases |msgs|
  {
    if msgs != [] {
      var init := msgs[..|msgs| - 1];
      RunExtends(v, init, loader);
      var u := Run(v, init, loader);
      RepeatExtends(u, msgs[|msgs| - 1], loader, u.listeners[NameOf(msgs[|msgs| - 1])]);
    }
  }

  /** The number of `loadScene` messages in `msgs` whose file reads and parses. */
  function ParsedLoads(msgs: seq<InMsg>, loader: Loader): nat
    decreases |msgs|
  {
    if msgs == [] then 0
    else
      var last := msgs[|msgs| - 1];
      ParsedLoads(msgs[..|msgs| - 1], loader) + (if last.LoadScene? && loader(last.url).Parsed? then 1 else 0)
  }

  lemma HandleKeepsScene(v: SessionView, msg: InMsg, loader: Loader)
    requires !msg.LoadScene?
    ensures Handle(v, msg, loader).intervals == v.intervals
    ensures Handle(v, msg, loader).children == v.children
  {
  }

  lemma {:induction false} RepeatKeepsIntervals(v: SessionView, msg: InMsg, loader: Loader, k: nat)
    requires !msg.LoadScene?
    ensures Repeat(v, msg, loader, k).intervals == v.intervals
    ensures Repeat(v, msg, loader, k).children == v.children
  {
    if k > 0 {
      RepeatKeepsIntervals(v, msg, loader, k - 1);
      HandleKeepsScene(Repeat(v, msg, loader, k - 1), msg, loader);
    }
  }

  /** Every successful load starts one more render interval, and none is ever cleared. */
  lemma {:induction false} RunCountsLoads(v: SessionView, msgs: seq<InMsg>, loader: Loader)
    requires WellFormed(v)
    ensures |Run(v, msgs, loader).intervals| == |v.intervals| + ParsedLoads(msgs, loader)
    decreases |msgs|
  {
    if msgs != [] {
      var init := msgs[..|msgs| - 1];
      var last := msgs[|msgs| - 1];
      RunCountsLoads(v, init, loader);
      var u := Run(v, init, loader);
      if last.LoadScene? {
        RunWellFormed(v, init, loader);
        StepLoad(u, last.url, loader);
      } else {
        RepeatKeepsIntervals(u, last, loader, u.listeners[NameOf(last)]);
      }
    }
  }

  /**
   * After n successful loads there are n render intervals and n objects besides the
   * light, and, once there has been one, the session is loaded and `render_interval`
   * is the last interval started.
   */
  lemma LoadsAccumulate(v: SessionView, msgs: seq<InMsg>, loader: Loader)
    requires WellFormed(v)
    ensures var u := Run(v, msgs, loader);
            && |u.intervals| == |v.intervals| + ParsedLoads(msgs, loader)
            && |u.children| == |v.children| + ParsedLoads(msgs, loader)
            && (ParsedLoads(msgs, loader) > 0 ==> u.isLoaded && u.renderInterval == Some(|u.intervals| - 1))
  {
    RunCountsLoads(v, msgs, loader);
    RunWellFormed(v, msgs, loader);
  }

  // Render ticks

  /**
   * A tick of a render interval: the renderer refreshes the camera matrix from the
   * orientation (`rotation` stands for Three.js's matrix update) before the frame is read.
   */
  function Tick(v: SessionView, rotation: Orientation -> Basis): SessionView {
    v.(matrix := rotation(v.orientation))
  }

  /** What reaches a session: a message on its socket, or a tick of one of its render intervals. */
  datatype Event = Deliver(msg: InMsg) | RenderTick

  function Apply(v: SessionView, e: Event, loader: Loader, rotation: Orientation -> Basis): SessionView {
    match e
    case Deliver(msg) => Step(v, msg, loader)
    case RenderTick => Tick(v, rotation)
  }

  /** Messages and ticks in the order they happen. */
  function RunEvents(v: SessionView, evs: seq<Event>, loader: Loader, rotation: Orientation -> Basis): SessionView
    decreases |evs|
  {
    if evs == [] then v
    else Apply(RunEvents(v, evs[..|evs| - 1], loader, rotation), evs[|evs| - 1], loader, rotation)
  }

  /** The messages among `evs`, in order. */
  function Messages(evs: seq<Event>): seq<InMsg>
    decreases |evs|
  {
    if evs == [] then []
    else Messages(evs[..|evs| - 1]) + (if evs[|evs| - 1].Deliver? then [evs[|evs| - 1].msg] else [])
  }

  /** The camera matrix is the one a tick would compute from the current orientation. */
  predicate Current(v: SessionView, rotation: Orientation -> Basis) {
    v.matrix == rotation(v.orientation)
  }

  /** Only move messages and ticks. */
  predicate MovesAndTicks(evs: seq<Event>) {
    forall i | 0 <= i < |evs| :: evs[i].Deliver? ==> evs[i].msg.Move?
  }

  /** A tick leaves the matrix current, and a tick on a current matrix changes nothing. */
  lemma TickCurrent(v: SessionView, rotation: Orientation -> Basis)
    ensures Current(Tick(v, rotation), rotation)
    ensures Tick(v, rotation) == v.(matrix := Tick(v, rotation).matrix)
    ensures Current(v, rotation) ==> Tick(v, rotation) == v
  {
  }

  /**
   * Between move messages, ticks change nothing while the matrix is current: moves leave
   * the orientation alone, so every tick recomputes the matrix the camera already has.
   */
  lemma {:induction false} TicksBetweenMovesInvisible(v: SessionView, evs: seq<Event>, loader: Loader, rotation: Orientation -> Basis)
    requires WellFormed(v) && Current(v, rotation) && MovesAndTicks(evs)
    ensures RunEvents(v, evs, loader, rotation) == Run(v, Messages(evs), loader)
    ensures Current(RunEvents(v, evs, loader, rotation), rotation)
    decreases |evs|
  {
    if evs != [] {
      var init, last := evs[..|evs| - 1], evs[|evs| - 1];
      assert MovesAndTicks(init) by {
        forall i | 0 <= i < |init| ensures init[i].Deliver? ==> init[i].msg.Move? {
          assert init[i] == evs[i];
        }
      }
      TicksBetweenMovesInvisible(v, init, loader, rotation);
      var u := Run(v, Messages(init), loader);
      RunWellFormed(v, Messages(init), loader);
      match last
      case RenderTick =>
        assert Messages(evs) == Messages(init);
      case Deliver(msg) =>
        assert Messages(evs) == Messages(init) + [msg];
        RunSnoc(v, Messages(init), msg, loader);
        StepMove(u, msg.axis, msg.distance, loader);
    }
  }

  /** Balanced move messages still cancel with ticks among them, if the matrix starts current. */
  lemma BalancedEventsCancel(v: SessionView, evs: seq<Event>, axes: seq<Axis>, distance: real, loader: Loader,
                             rotation: Orientation -> Basis)
    requires WellFormed(v) && Current(v, rotation) && MovesAndTicks(evs)
    requires Messages(evs) == MoveMsgs(axes, distance)
    requires multiset(axes)[Forward] == multiset(axes)[Backward]
    requires multiset(axes)[Right] == multiset(axes)[Left]
    requires multiset(axes)[Up] == multiset(axes)[Down]
    ensures RunEvents(v, evs, loader, rotation) == v
  {
    TicksBetweenMovesInvisible(v, evs, loader, rotation);
    BalancedRunCancels(v, axes, distance, loader);
  }

  /** Three events in a row. */
  lemma RunEventsThree(v: SessionView, e1: Event, e2: Event, e3: Event, loader: Loader, rotation: Orientation -> Basis)
    ensures RunEvents(v, [e1, e2, e3], loader, rotation) ==
            Apply(Apply(Apply(v, e1, loader, rotation), e2, loader, rotation), e3, loader, rotation)
  {
    assert [e1][..0] == [];
    assert RunEvents(v, [e1], loader, rotation) == Apply(v, e1, loader, rotation);
    assert [e1, e2][..1] == [e1];
    assert RunEvents(v, [e1, e2], loader, rotation) == Apply(RunEvents(v, [e1], loader, rotation), e2, loader, rotation);
    assert [e1, e2, e3][..2] == [e1, e2];
  }

  /** A tick keeps a session well formed and connected or not: it changes only the matrix. */
  lemma TickWellFormed(v: SessionView, rotation: Orientation -> Basis)
    requires WellFormed(v)
    ensures WellFormed(Tick(v, rotation)) && Connected(Tick(v, rotation)) == Connected(v)
  {
  }

  /**
   * A tick between a move and its opposite refreshes the matrix, so the opposite move runs
   * along the refreshed vector: the camera ends displaced by the difference of the two
   * vectors, and is back where it was only when the matrix was already current.
   */
  lemma MoveAcrossTick(v: SessionView, axis: Axis, distance: real, loader: Loader, rotation: Orientation -> Basis)
    requires WellFormed(v) && Connected(v)
    ensures var u := RunEvents(v, [Deliver(Move(axis, distance)), RenderTick, Deliver(Move(Opposite(axis), distance))],
                               loader, rotation);
            && u.position == AddScaled(AddScaled(v.position, Direction(v.matrix, axis), distance),
                                       Direction(rotation(v.orientation), axis), -distance)
            && (Current(v, rotation) ==> u == v)
  {
    RunEventsThree(v, Deliver(Move(axis, distance)), RenderTick, Deliver(Move(Opposite(axis), distance)), loader, rotation);
    var a := Step(v, Move(axis, distance), loader);
    StepMove(v, axis, distance, loader);
    StepWellFormed(v, Move(axis, distance), loader);
    var b := Tick(a, rotation);
    TickWellFormed(a, rotation);
    assert b.position == Moved(v.position, v.matrix, axis, distance) && b.matrix == rotation(v.orientation);
    StepMove(b, Opposite(axis), distance, loader);
    var u := Step(b, Move(Opposite(axis), distance), loader);
    assert u.position == Moved(b.position, b.matrix, Opposite(axis), distance);
    MoveThenOppositeAcross(v.position, v.matrix, b.matrix, axis, distance);
    if Current(v, rotation) {
      TickCurrent(a, rotation);
      MoveThenOpposite(v.position, v.matrix, axis, distance);
    }
  }
}
