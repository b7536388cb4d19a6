/**
 * `RendererScene`: one connection's session on the server. It owns the camera and its
 * `PointerLockControls`, the scene's children, the loaded flag and the render intervals,
 * and is proved to follow `SessionModel` event by event.
 */
module Scene {
  import opened Wrappers
  import opened Geometry
  import opened Protocol
  import opened Controls
  import opened SessionModel

  /** `gl.RGBA` with `gl.UNSIGNED_BYTE`: four one-byte channels per pixel. */
  const BYTES_PER_PIXEL: nat := 4

  /** The arguments of the `readPixels` call of a render tick, and the length of its buffer. */
  datatype Readback = Readback(x: nat, y: nat, width: nat, height: nat, bufferLength: nat)

  /** The read-back of a `width` by `height` frame. */
  function FrameReadback(width: nat, height: nat): Readback {
    Readback(0, 0, width, height, width * height * BYTES_PER_PIXEL)
  }

  /** Where the four bytes of the pixel in column `i` and row `j` start in the buffer. */
  function PixelOffset(width: nat, i: nat, j: nat): nat {
    (j * width + i) * BYTES_PER_PIXEL
  }

  lemma MulMono(a: nat, b: nat, c: nat)
    requires a <= b
    ensures a * c <= b * c
  {
  }

  /**
   * The buffer is exactly as large as the region read: every pixel's four bytes lie
   * inside it, and the last pixel's bytes end at its last byte.
   */
  lemma ReadbackFitsFrame(width: nat, height: nat, i: nat, j: nat)
    requires i < width && j < height
    ensures PixelOffset(width, i, j) + BYTES_PER_PIXEL <= FrameReadback(width, height).bufferLength
    ensures PixelOffset(width, width - 1, height - 1) + BYTES_PER_PIXEL == FrameReadback(width, height).bufferLength
  {
    MulMono(j + 1, height, width);
    assert j * width + i + 1 <= (j + 1) * width;
    MulMono(j * width + i + 1, height * width, BYTES_PER_PIXEL);
    assert (height - 1) * width + (width - 1) + 1 == height * width;
  }

  class RendererScene {
    const socket: Socket
    const camera: Camera
    const controls: PointerLockControls
    const width: nat
    const height: nat
    var children: seq<SceneNode>
    var isLoaded: bool
    var intervals: seq<nat>
    var renderInterval: Option<nat>

    /** The objects that make up the session. */
    ghost function Repr(): set<object> {
      {this, socket, camera, controls}
    }

    /** The controls drive this session's camera from this session's socket. */
    ghost predicate Valid() {
      controls.camera == camera && controls.socket == socket
    }

    /** The session's state as a `SessionModel` value. */
    function View(): SessionView
      reads this, socket, camera, controls
    {
      SessionView(socket.listeners, controls.isLocked, camera.position, camera.orientation, camera.matrix,
                  children, isLoaded, intervals, renderInterval)
    }

    /**
     * A new session on `socket`: the controls subscribe their handlers, the light is
     * added and `loadScene` is subscribed; nothing is loaded and no interval runs.
     */
    constructor (socket: Socket, width: nat, height: nat)
      modifies socket
      ensures Valid() && fresh(camera) && fresh(controls)
      ensures this.socket == socket && this.width == width && this.height == height
      ensures View() == Initial().(listeners := old(socket.listeners) + Initial().listeners)
    {
      this.socket := socket;
      this.width := width;
      this.height := height;
      var cam := new Camera();
      camera := cam;
      controls := new PointerLockControls(cam, socket);
      children := [];
      isLoaded := false;
      intervals := [];
      renderInterval := None;
      new;
      AddLight();
      socket.On(LoadSceneEv);
      InitialListeners(old(socket.listeners));
    }

    method AddLight()
      modifies this
      ensures children == old(children) + [LIGHT]
      ensures isLoaded == old(isLoaded) && intervals == old(intervals) && renderInterval == old(renderInterval)
    {
      children := children + [LIGHT];
    }

    /**
     * `loadScene`: reset the camera, then read and parse the file; `failed` is set when
     * either step throws, in which case the rest of the handler does not run.
     */
    method LoadScene(url: string, loader: Loader) returns (failed: bool)
      requires Valid()
      modifies this, camera
      ensures View() == AfterLoad(old(View()), loader(url))
      ensures failed == !loader(url).Parsed?
    {
      controls.Reset(ORIGIN);
      match loader(url)
      case ReadFailed =>
        failed := true;
      case ParseFailed =>
        failed := true;
      case Parsed(obj) =>
        children := children + [Model(obj)];
        isLoaded := true;
        renderInterval := Some(|intervals|);
        intervals := intervals + [RENDER_PERIOD_MS];
        failed := false;
    }

    /**
     * One render tick: the renderer refreshes the camera matrix from the camera's
     * orientation (`rotation` stands for Three.js's matrix update) and the frame is read back.
     */
    method Render(rotation: Orientation -> Basis) returns (r: Readback)
      requires Valid()
      modifies camera
      ensures View() == Tick(old(View()), rotation)
      ensures r == FrameReadback(width, height)
    {
      camera.matrix := rotation(camera.orientation);
      r := FrameReadback(width, height);
    }

    /** One call of the listener the controls or the session registered for `msg`. */
    method HandleOnce(msg: InMsg, loader: Loader)
      requires Valid()
      modifies this, socket, camera, controls
      ensures View() == Handle(old(View()), msg, loader)
    {
      match msg
      case Lock => Lock();
      case Unlock => Unlock();
      case PointerLockError => OnPointerLockError();
      case MouseMove(mx, my) => OnMouseMove(mx, my);
      case Move(axis, distance) => Move(axis, distance);
      case LoadScene(url) =>
        var _ := LoadScene(url, loader);
      case _ =>
    }

    /** The `lock` handler the controls registered. */
    method Lock()
      requires Valid()
      modifies socket, controls
      ensures View() == old(View()).(listeners := old(socket.listeners) + multiset{MouseMoveEv}, isLocked := true)
    {
      controls.Lock();
    }

    /** The `unlock` handler the controls registered. */
    method Unlock()
      requires Valid()
      modifies socket, controls
      ensures View() == old(View()).(listeners := old(socket.listeners) - multiset{MouseMoveEv}, isLocked := false)
    {
      controls.Unlock();
    }

    /** The `pointerlockerror` handler the controls registered: it unsubscribes them. */
    method OnPointerLockError()
      requires Valid()
      modifies socket
      ensures View() == old(View()).(listeners := old(socket.listeners) - CONNECT_HANDLERS)
    {
      controls.OnPointerlockError();
    }

    /** The mousemove handler `lock` subscribed. */
    method OnMouseMove(movementX: Option<real>, movementY: Option<real>)
      requires Valid()
      modifies camera
      ensures View() == if controls.isLocked then old(View()).(orientation := Look(old(camera.orientation), movementX, movementY))
                        else old(View())
    {
      controls.OnMouseMove(movementX, movementY);
    }

    /** The move handler the controls registered for `axis`. */
    method Move(axis: Axis, distance: real)
      requires Valid()
      modifies camera
      ensures View() == old(View()).(position := Moved(old(camera.position), camera.matrix, axis, distance))
    {
      match axis
      case Forward => controls.MoveForward(distance);
      case Backward => controls.MoveBackward(distance);
      case Right => controls.MoveRight(distance);
      case Left => controls.MoveLeft(distance);
      case Up => controls.MoveUp(distance);
      case Down => controls.MoveDown(distance);
    }

    /** Emitting `msg` on the socket: every listener registered for its name when it arrives runs once. */
    method Dispatch(msg: InMsg, loader: Loader)
      requires Valid()
      modifies this, socket, camera, controls
      ensures View() == Step(old(View()), msg, loader)
    {
      ghost var start := View();
      var n := socket.listeners[NameOf(msg)];
      var i := 0;
      while i < n
        invariant 0 <= i <= n
        invariant View() == Repeat(start, msg, loader, i)
      {
        HandleOnce(msg, loader);
        i := i + 1;
      }
    }

    /** The messages of `msgs`, in the order received. */
    method DispatchAll(msgs: seq<InMsg>, loader: Loader)
      requires Valid()
      modifies this, socket, camera, controls
      ensures View() == Run(old(View()), msgs, loader)
    {
      ghost var start := View();
      var i := 0;
      while i < |msgs|
        invariant 0 <= i <= |msgs|
        invariant View() == Run(start, msgs[..i], loader)
      {
        Dispatch(msgs[i], loader);
        assert msgs[..i + 1][..i] == msgs[..i];
        i := i + 1;
      }
      assert msgs[..|msgs|] == msgs;
    }

    /** Messages and render ticks in the order they happen; each tick's read-back is dropped. */
    method Play(evs: seq<Event>, loader: Loader, rotation: Orientation -> Basis)
      requires Valid()
      modifies this, socket, camera, controls
      ensures View() == RunEvents(old(View()), evs, loader, rotation)
    {
      ghost var start := View();
      var i := 0;
      while i < |evs|
        invariant 0 <= i <= |evs|
        invariant View() == RunEvents(start, evs[..i], loader, rotation)
      {
        match evs[i] {
          case Deliver(msg) => Dispatch(msg, loader);
          case RenderTick =>
            var _ := Render(rotation);
        }
        assert evs[..i + 1][..i] == evs[..i];
        i := i + 1;
      }
      assert evs[..|evs|] == evs;
    }
  }
}
