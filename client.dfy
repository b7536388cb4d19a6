/**
 * The browser client: which messages it sends for keyboard, mouse and pointer-lock
 * events, and what it does with the `image` and `timestampResponse` messages it gets back.
 */
module Client {
  import opened Wrappers
  import opened Protocol
  import opened Controls

  /** The distance every key press asks the camera to move. */
  const KEY_STEP: real := 0.25

  /** The key codes `onKeyDown` sends a message for. */
  const MOVE_KEYS: set<string> := {"KeyW", "KeyS", "KeyA", "KeyD", "KeyQ", "KeyE"}

  /** The move command a key code stands for: W/S forward and back, A/D left and right, Q/E down and up. */
  function KeyAxis(code: string): Option<Axis> {
    match code
    case "KeyW" => Some(Forward)
    case "KeyS" => Some(Backward)
    case "KeyA" => Some(Left)
    case "KeyD" => Some(Right)
    case "KeyQ" => Some(Down)
    case "KeyE" => Some(Up)
    case _ => None
  }

  /** `onKeyDown`: the message a key press sends, if any; every move is by `KEY_STEP`. */
  function KeyMessage(code: string): (m: Option<InMsg>)
    ensures m.Some? <==> code in MOVE_KEYS
    ensures m.Some? ==> m.value.Move? && m.value.distance == KEY_STEP && Some(m.value.axis) == KeyAxis(code)
  {
    match KeyAxis(code)
    case Some(axis) => Some(Move(axis, KEY_STEP))
    case None => None
  }

  /** The keys pair up into opposite moves: W/S, A/D and Q/E. */
  lemma OppositeKeys(code: string, other: string)
    requires (code, other) in {("KeyW", "KeyS"), ("KeyA", "KeyD"), ("KeyQ", "KeyE")}
    ensures KeyMessage(code).Some? && KeyMessage(other).Some?
    ensures KeyMessage(other).value == Move(Opposite(KeyMessage(code).value.axis), KEY_STEP)
    ensures KeyMessage(code).value == Move(Opposite(KeyMessage(other).value.axis), KEY_STEP)
  {
  }

  /** Listeners the page puts on its document. */
  datatype DomListener = KeyDownL | MouseMoveL | PointerLockChangeL | PointerLockErrorL

  /** An event the browser fires on the document. */
  datatype DomEvent =
    | KeyDown(code: string)
    | MouseMoved(movementX: Option<real>, movementY: Option<real>)
    | PointerLockChange(canvasHasLock: bool)   // whether `pointerLockElement` is now the canvas
    | PointerLockFailed

  /**
   * What reaching the document's listeners `listeners` with `ev` sends to the server;
   * `pointerlockchange` is left to the `ClientPage` method, since it also changes the page.
   */
  function Emits(listeners: set<DomListener>, ev: DomEvent): (sent: seq<InMsg>)
    ensures |sent| <= 1
  {
    match ev
    case KeyDown(code) =>
      if KeyDownL in listeners && KeyMessage(code).Some? then [KeyMessage(code).value] else []
    case MouseMoved(mx, my) => if MouseMoveL in listeners then [MouseMove(mx, my)] else []
    case PointerLockChange(owns) =>
      if PointerLockChangeL in listeners then [if owns then Lock else Unlock] else []
    case PointerLockFailed => if PointerLockErrorL in listeners then [LockError] else []
  }

  /** An `image` message is drawn only when the buffer is not empty. */
  function ShownImage(shown: Option<seq<bv8>>, buffer: seq<bv8>): Option<seq<bv8>> {
    if |buffer| > 0 then Some(buffer) else shown
  }

  /** What the canvas shows after the `image` messages `buffers`, in the order they arrive. */
  function ShownAfter(shown: Option<seq<bv8>>, buffers: seq<seq<bv8>>): Option<seq<bv8>>
    decreases |buffers|
  {
    if buffers == [] then shown
    else ShownImage(ShownAfter(shown, buffers[..|buffers| - 1]), buffers[|buffers| - 1])
  }

  /** `image` messages whose buffers are all empty leave the canvas as it was. */
  lemma {:induction false} EmptyImagesKeepCanvas(shown: Option<seq<bv8>>, buffers: seq<seq<bv8>>)
    requires forall i | 0 <= i < |buffers| :: |buffers[i]| == 0
    ensures ShownAfter(shown, buffers) == shown
    decreases |buffers|
  {
    if buffers != [] {
      EmptyImagesKeepCanvas(shown, buffers[..|buffers| - 1]);
    }
  }

  /** The canvas shows the last non-empty buffer among the `image` messages, whatever came before it. */
  lemma {:induction false} ShowsLastNonEmpty(shown: Option<seq<bv8>>, buffers: seq<seq<bv8>>, j: nat)
    requires j < |buffers| && |buffers[j]| > 0
    requires forall k | j < k < |buffers| :: |buffers[k]| == 0
    ensures ShownAfter(shown, buffers) == Some(buffers[j])
    decreases |buffers|
  {
    if j < |buffers| - 1 {
      ShowsLastNonEmpty(shown, buffers[..|buffers| - 1], j);
    }
  }

  /** The round-trip time shown for a `timestampResponse` carrying `t`, received at `now`. */
  function Latency(now: int, t: int): int {
    now - t
  }

  /** The page's own state: the module-level lock flag, its document listeners and what it shows. */
  class ClientPage {
    var isLocked: bool
    var listeners: set<DomListener>
    var shown: Option<seq<bv8>>        // the last image drawn on the canvas
    var pingPongMs: Option<int>        // the latency shown
    var sent: seq<InMsg>               // every message sent to the server so far

    /** The keyboard listener is always on; the mousemove listener is on exactly while locked. */
    ghost predicate Valid()
      reads this
    {
      KeyDownL in listeners && (MouseMoveL in listeners <==> isLocked)
    }

    /** The page after loading: unlocked, listening for keys only. */
    constructor ()
      ensures Valid() && !isLocked && listeners == {KeyDownL}
      ensures shown == None && pingPongMs == None && sent == []
    {
      isLocked := false;
      listeners := {KeyDownL};
      shown := None;
      pingPongMs := None;
      sent := [];
    }

    /** `attach`, run by the lock button: pointer-lock change and error listeners go on. */
    method Attach()
      requires Valid()
      modifies this
      ensures Valid()
      ensures listeners == old(listeners) + {PointerLockChangeL, PointerLockErrorL}
      ensures isLocked == old(isLocked) && shown == old(shown) && pingPongMs == old(pingPongMs) && sent == old(sent)
    {
      listeners := listeners + {PointerLockChangeL, PointerLockErrorL};
    }

    /** `detach`, run on disconnection: the pointer-lock listeners come off; the lock flag is left alone. */
    method Detach()
      requires Valid()
      modifies this
      ensures Valid()
      ensures listeners == old(listeners) - {PointerLockChangeL, PointerLockErrorL}
      ensures isLocked == old(isLocked) && shown == old(shown) && pingPongMs == old(pingPongMs) && sent == old(sent)
    {
      listeners := listeners - {PointerLockChangeL, PointerLockErrorL};
    }

    /**
     * `onPointerLockChange`: when the canvas has the lock, send `lock`, set the flag and
     * listen to the mouse; otherwise send `unlock`, stop listening and clear the flag.
     */
    method OnPointerLockChange(canvasHasLock: bool)
      requires Valid()
      modifies this
      ensures Valid()
      ensures isLocked == canvasHasLock
      ensures sent == old(sent) + [if canvasHasLock then Lock else Unlock]
      ensures listeners == if canvasHasLock then old(listeners) + {MouseMoveL} else old(listeners) - {MouseMoveL}
      ensures shown == old(shown) && pingPongMs == old(pingPongMs)
    {
      if canvasHasLock {
        sent := sent + [Lock];
        isLocked := true;
        listeners := listeners + {MouseMoveL};
      } else {
        sent := sent + [Unlock];
        listeners := listeners - {MouseMoveL};
        isLocked := false;
      }
    }

    /** The browser firing `ev` on the document: only a listener that is on runs. */
    method Deliver(ev: DomEvent)
      requires Valid()
      modifies this
      ensures Valid()
      ensures sent == old(sent) + Emits(old(listeners), ev)
      ensures ev.PointerLockChange? && PointerLockChangeL in old(listeners) ==>
                && isLocked == ev.canvasHasLock
                && listeners == if ev.canvasHasLock then old(listeners) + {MouseMoveL} else old(listeners) - {MouseMoveL}
      ensures !(ev.PointerLockChange? && PointerLockChangeL in old(listeners)) ==>
                isLocked == old(isLocked) && listeners == old(listeners)
      ensures shown == old(shown) && pingPongMs == old(pingPongMs)
    {
      match ev
      case KeyDown(code) =>
        if KeyDownL in listeners && KeyMessage(code).Some? {
          sent := sent + [KeyMessage(code).value];
        }
      case MouseMoved(mx, my) =>
        if MouseMoveL in listeners {
          sent := sent + [MouseMove(mx, my)];
        }
      case PointerLockChange(owns) =>
        if PointerLockChangeL in listeners {
          OnPointerLockChange(owns);
        }
      case PointerLockFailed =>
        if PointerLockErrorL in listeners {
          sent := sent + [LockError];
        }
    }

    /** The `image` message: a non-empty PNG buffer replaces what the canvas shows. */
    method OnImage(buffer: seq<bv8>)
      modifies this
      ensures shown == ShownImage(old(shown), buffer)
      ensures isLocked == old(isLocked) && listeners == old(listeners)
      ensures pingPongMs == old(pingPongMs) && sent == old(sent)
    {
      if |buffer| > 0 {
        shown := Some(buffer);
      }
    }

    /** The `timestampResponse` message carrying `t`, received at time `now`. */
    method OnTimestampResponse(t: int, now: int)
      modifies this
      ensures pingPongMs == Some(Latency(now, t))
      ensures isLocked == old(isLocked) && listeners == old(listeners)
      ensures shown == old(shown) && sent == old(sent)
    {
      pingPongMs := Some(now - t);
    }

    /** One tick of the one-second timer started on `connect`: send the current time. */
    method OnTimerTick(now: int)
      modifies this
      ensures sent == old(sent) + [ClientTimestamp(now)]
      ensures isLocked == old(isLocked) && listeners == old(listeners)
      ensures shown == old(shown) && pingPongMs == old(pingPongMs)
    {
      sent := sent + [ClientTimestamp(now)];
    }
  }

  /** On a page in its valid state, mouse motion is sent exactly while the page is locked. */
  lemma MouseMoveSentIffLocked(listeners: set<DomListener>, isLocked: bool, mx: Option<real>, my: Option<real>)
    requires KeyDownL in listeners && (MouseMoveL in listeners <==> isLocked)
    ensures Emits(listeners, MouseMoved(mx, my)) == (if isLocked then [MouseMove(mx, my)] else [])
  {
  }

  /** A pointer-lock failure sends `lockError`, never the `pointerlockerror` the server listens for. */
  lemma LockFailureSendsLockError(listeners: set<DomListener>)
    ensures forall m | m in Emits(listeners, PointerLockFailed) :: m == LockError && NameOf(m) != PointerLockErrorEv
  {
  }
}
