/**
 * Facts about the client and a server session together: what the keys the user presses
 * and the pointer-lock events the browser fires do to the session's camera.
 */
module EndToEnd {
  import opened Wrappers
  import opened Geometry
  import opened Protocol
  import opened Controls
  import opened SessionModel
  import opened Client
  import Server

  /** The axes of the moves that key presses `codes` send, in order. */
  function KeyAxes(codes: seq<string>): seq<Axis>
    decreases |codes|
  {
    if codes == [] then []
    else
      var last := codes[|codes| - 1];
      KeyAxes(codes[..|codes| - 1]) + (if KeyAxis(last).Some? then [KeyAxis(last).value] else [])
  }

  /** The messages a page with document listeners `listeners` sends for key presses `codes`. */
  function KeysSent(listeners: set<DomListener>, codes: seq<string>): seq<InMsg>
    decreases |codes|
  {
    if codes == [] then []
    else KeysSent(listeners, codes[..|codes| - 1]) + Emits(listeners, KeyDown(codes[|codes| - 1]))
  }

  /** With the keyboard listener on, key presses send one move by `KEY_STEP` per move key, in order. */
  lemma {:induction false} KeysSentAreMoves(listeners: set<DomListener>, codes: seq<string>)
    requires KeyDownL in listeners
    ensures KeysSent(listeners, codes) == MoveMsgs(KeyAxes(codes), KEY_STEP)
    decreases |codes|
  {
    if codes == [] {
      assert MoveMsgs([], KEY_STEP) == [];
    } else {
      var init := codes[..|codes| - 1];
      KeysSentAreMoves(listeners, init);
      var axes := KeyAxes(init);
      var last := codes[|codes| - 1];
      if KeyAxis(last).Some? {
        assert MoveMsgs(axes + [KeyAxis(last).value], KEY_STEP) ==
               MoveMsgs(axes, KEY_STEP) + [Move(KeyAxis(last).value, KEY_STEP)];
      } else {
        assert axes + [] == axes;
      }
    }
  }

  /** The key table, one row per move key. */
  lemma KeyTable()
    ensures KeyAxis("KeyW") == Some(Forward) && KeyAxis("KeyS") == Some(Backward)
    ensures KeyAxis("KeyA") == Some(Left) && KeyAxis("KeyD") == Some(Right)
    ensures KeyAxis("KeyQ") == Some(Down) && KeyAxis("KeyE") == Some(Up)
  {
  }

  /** Each move key stands for its own axis. */
  lemma KeyAxisInjective(code: string, key: string, a: Axis)
    requires KeyAxis(key) == Some(a)
    ensures KeyAxis(code) == Some(a) <==> code == key
  {
  }

  /** An axis occurs as often in the sent moves as its key occurs among the presses. */
  lemma {:induction false} KeyAxesCount(codes: seq<string>, key: string, a: Axis)
    requires KeyAxis(key) == Some(a)
    ensures multiset(KeyAxes(codes))[a] == multiset(codes)[key]
    decreases |codes|
  {
    if codes != [] {
      var init, last := codes[..|codes| - 1], codes[|codes| - 1];
      KeyAxesCount(init, key, a);
      LastPressCounts(codes, key, a);
    }
  }

  /** The last press adds one to its key's count and, if it is a move key, one to its axis's count. */
  lemma LastPressCounts(codes: seq<string>, key: string, a: Axis)
    requires codes != [] && KeyAxis(key) == Some(a)
    ensures var init, last := codes[..|codes| - 1], codes[|codes| - 1];
            && multiset(codes)[key] == multiset(init)[key] + (if last == key then 1 else 0)
            && multiset(KeyAxes(codes))[a] == multiset(KeyAxes(init))[a] + (if last == key then 1 else 0)
  {
    var init, last := codes[..|codes| - 1], codes[|codes| - 1];
    assert codes == init + [last];
    var tail := if KeyAxis(last).Some? then [KeyAxis(last).value] else [];
    KeyAxisInjective(last, key, a);
    assert multiset(tail)[a] == if last == key then 1 else 0;
    assert multiset(KeyAxes(codes)) == multiset(KeyAxes(init)) + multiset(tail);
  }

  /**
   * W then S, A then D, Q then E (or the other way round) leave a session's camera,
   * and the whole session, as they found it.
   */
  lemma OppositeKeysCancel(v: SessionView, code: string, other: string, loader: Loader)
    requires WellFormed(v)
    requires (code, other) in {("KeyW", "KeyS"), ("KeyS", "KeyW"), ("KeyA", "KeyD"),
                               ("KeyD", "KeyA"), ("KeyQ", "KeyE"), ("KeyE", "KeyQ")}
    ensures KeyMessage(code).Some? && KeyMessage(other).Some?
    ensures Run(v, [KeyMessage(code).value, KeyMessage(other).value], loader) == v
  {
    var axis := KeyMessage(code).value.axis;
    assert KeyMessage(other).value == Move(Opposite(axis), KEY_STEP);
    MoveThenOppositeStep(v, axis, KEY_STEP, loader);
  }

  /**
   * Any key presses with as many W as S, A as D and Q as E, in any order, leave the
   * session as it was.
   */
  lemma BalancedKeysCancel(v: SessionView, listeners: set<DomListener>, codes: seq<string>, loader: Loader)
    requires WellFormed(v) && KeyDownL in listeners
    requires multiset(codes)["KeyW"] == multiset(codes)["KeyS"]
    requires multiset(codes)["KeyA"] == multiset(codes)["KeyD"]
    requires multiset(codes)["KeyQ"] == multiset(codes)["KeyE"]
    ensures Run(v, KeysSent(listeners, codes), loader) == v
  {
    KeysSentAreMoves(listeners, codes);
    KeyTable();
    KeyAxesCount(codes, "KeyW", Forward);
    KeyAxesCount(codes, "KeyS", Backward);
    KeyAxesCount(codes, "KeyA", Left);
    KeyAxesCount(codes, "KeyD", Right);
    KeyAxesCount(codes, "KeyQ", Down);
    KeyAxesCount(codes, "KeyE", Up);
    BalancedRunCancels(v, KeyAxes(codes), KEY_STEP, loader);
  }

  /**
   * Balanced key presses still leave the session where it was when render ticks fall
   * between the moves, provided the camera matrix was current when they started.
   */
  lemma BalancedKeysCancelAcrossTicks(v: SessionView, listeners: set<DomListener>, codes: seq<string>,
                                      evs: seq<Event>, loader: Loader, rotation: Orientation -> Basis)
    requires WellFormed(v) && KeyDownL in listeners && Current(v, rotation) && MovesAndTicks(evs)
    requires Messages(evs) == KeysSent(listeners, codes)
    requires multiset(codes)["KeyW"] == multiset(codes)["KeyS"]
    requires multiset(codes)["KeyA"] == multiset(codes)["KeyD"]
    requires multiset(codes)["KeyQ"] == multiset(codes)["KeyE"]
    ensures RunEvents(v, evs, loader, rotation) == v
  {
    TicksBetweenMovesInvisible(v, evs, loader, rotation);
    BalancedKeysCancel(v, listeners, codes, loader);
  }

  /** A pointer-lock failure on the page changes nothing in the session. */
  lemma LockFailureIgnored(v: SessionView, listeners: set<DomListener>, loader: Loader)
    requires WellFormed(v)
    ensures Run(v, Emits(listeners, PointerLockFailed), loader) == v
  {
    if PointerLockErrorL in listeners {
      StepUnlistened(v, LockError, loader);
      assert Run(v, [LockError], loader) == Step(Run(v, [], loader), LockError, loader) by {
        assert [LockError][..0] == [];
      }
    }
  }

  /**
   * The canvas taking the pointer lock and then losing it sends `lock` then `unlock`,
   * which returns a connected session to its listener table, unlocked.
   */
  lemma LockCycle(v: SessionView, listeners: set<DomListener>, loader: Loader)
    requires WellFormed(v) && Connected(v) && PointerLockChangeL in listeners
    ensures Run(v, Emits(listeners, PointerLockChange(true)) + Emits(listeners, PointerLockChange(false)), loader) ==
            v.(isLocked := false)
  {
    assert Emits(listeners, PointerLockChange(true)) + Emits(listeners, PointerLockChange(false)) == [Lock, Unlock];
    LockThenUnlock(v, loader);
  }

  /**
   * One tick of the page's timestamp timer at `t0`, the server's echo on socket `id`, and
   * the page receiving that echo at `now`: for a registered socket the page shows a latency
   * of now − t0; for an unregistered one no reply comes and the latency shown stays.
   */
  method TimestampRoundTrip(page: ClientPage, app: Server.App, id: Id, t0: int, now: int)
    modifies page
    ensures page.sent == old(page.sent) + [ClientTimestamp(t0)]
    ensures page.pingPongMs == if id in app.clients then Some(now - t0) else old(page.pingPongMs)
    ensures page.isLocked == old(page.isLocked) && page.listeners == old(page.listeners)
    ensures page.shown == old(page.shown)
  {
    page.OnTimerTick(t0);
    var request := page.sent[|page.sent| - 1];
    var response := app.ClientTimestamp(id, request.t);
    if response.Some? {
      page.OnTimestampResponse(response.value, now);
    }
  }
}
