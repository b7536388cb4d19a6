/**
 * The messages a connection carries and the socket's listener table.
 *
 * A socket.io socket is an event emitter: `on(name, f)` appends a listener,
 * `off(name, f)` removes one occurrence of it, and an incoming event calls
 * every listener registered for its name at that moment. Duplicates are kept,
 * so the table is a multiset of event names (within one socket each name has
 * a single handler function, so the name identifies the listener).
 */
module Protocol {
  import opened Wrappers

  /** A socket id. */
  type Id = string

  /** The six `move*` commands. */
  datatype Axis = Forward | Backward | Left | Right | Up | Down

  /** An event a client can send, with its payload. */
  datatype InMsg =
    | Lock                                                     // "lock"
    | Unlock                                                   // "unlock"
    | LockError                                                // "lockError", sent by the browser client
    | PointerLockError                                         // "pointerlockerror", listened for by the server
    | MouseMove(movementX: Option<real>, movementY: Option<real>)  // "mousemove"; a field may be missing
    | Move(axis: Axis, distance: real)                         // "moveForward" ... "moveDown" with {distance}
    | LoadScene(url: string)                                   // "loadScene" with {url}
    | ClientTimestamp(t: int)                                  // "clientTimestamp"
    | Disconnect                                               // the transport's "disconnect"
    | Other(name: string)                                      // any event name outside the protocol

  /** Event names, the keys of the listener table. */
  datatype EventName =
    | LockEv | UnlockEv | LockErrorEv | PointerLockErrorEv | MouseMoveEv | MoveEv(axis: Axis)
    | LoadSceneEv | ClientTimestampEv | DisconnectEv | OtherEv(name: string)

  function NameOf(m: InMsg): EventName {
    match m
    case Lock => LockEv
    case Unlock => UnlockEv
    case LockError => LockErrorEv
    case PointerLockError => PointerLockErrorEv
    case MouseMove(_, _) => MouseMoveEv
    case Move(axis, _) => MoveEv(axis)
    case LoadScene(_) => LoadSceneEv
    case ClientTimestamp(_) => ClientTimestampEv
    case Disconnect => DisconnectEv
    case Other(name) => OtherEv(name)
  }

  /** Removing one name after a set of names is removing the whole lot at once. */
  lemma OffAfterOff(listeners: multiset<EventName>, removed: multiset<EventName>, name: EventName)
    ensures (listeners - removed) - multiset{name} == listeners - (removed + multiset{name})
  {
    forall e ensures ((listeners - removed) - multiset{name})[e] == (listeners - (removed + multiset{name}))[e] {
    }
  }

  /** The server side of one connection: its id and the listeners registered on it. */
  class Socket {
    const id: Id
    var listeners: multiset<EventName>

    constructor (id: Id)
      ensures this.id == id && listeners == multiset{}
    {
      this.id := id;
      listeners := multiset{};
    }

    /** `socket.on(name, handler)`. */
    method On(name: EventName)
      modifies this
      ensures listeners == old(listeners) + multiset{name}
    {
      listeners := listeners + multiset{name};
    }

    /** `socket.off(name, handler)`: removes one registration; a no-op when there is none. */
    method Off(name: EventName)
      modifies this
      ensures listeners == old(listeners) - multiset{name}
    {
      listeners := listeners - multiset{name};
    }
  }
}
