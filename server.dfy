/**
 * `App`: the server's registry of sessions, keyed by socket id, and the latency echo.
 * The `disconnect` and `clientTimestamp` listeners the server puts on every socket are
 * modelled as the methods `Disconnect` and `ClientTimestamp`; `Receive` routes one
 * incoming message either to them or to the session's own listeners.
 */
module Server {
  import opened Wrappers
  import opened Protocol
  import opened SessionModel
  import opened Scene

  class App {
    const width: nat
    const height: nat
    var clients: map<Id, RendererScene>

    /** Each session listens on the socket it is registered under, and no two share an object. */
    ghost predicate Valid()
      reads this
    {
      && (forall id | id in clients :: clients[id].Valid() && clients[id].socket.id == id)
      && (forall a, b | a in clients && b in clients && a != b :: clients[a].Repr() !! clients[b].Repr())
    }

    constructor ()
      ensures Valid() && clients == map[]
      ensures width == 1280 && height == 720
    {
      width := 1280;
      height := 720;
      clients := map[];
    }

    /**
     * A connection on socket `id`: a new session is registered under `id`, replacing any
     * earlier entry; the other entries are untouched.
     */
    method Connect(id: Id) returns (s: RendererScene)
      requires Valid()
      modifies this
      ensures Valid()
      ensures clients == old(clients)[id := s]
      ensures fresh(s.Repr()) && s.socket.id == id
      ensures s.View() == Initial()
      ensures s.width == width && s.height == height
    {
      s := NewSession(id);
      forall a | a in clients
        ensures clients[a].Repr() !! s.Repr()
      {
      }
      clients := clients[id := s];
    }

    /** The session `connection` creates for a new socket `id`, at the server's frame size. */
    method NewSession(id: Id) returns (s: RendererScene)
      ensures fresh(s.Repr()) && s.Valid() && s.socket.id == id
      ensures s.View() == Initial()
      ensures s.width == width && s.height == height
    {
      var socket := new Socket(id);
      s := new RendererScene(socket, width, height);
    }

    /**
     * `disconnect` on socket `id`: the entry is deleted if present. The session itself is
     * not touched, so the render intervals it started keep running.
     */
    method Disconnect(id: Id)
      requires Valid()
      modifies this
      ensures Valid()
      ensures clients == old(clients) - {id}
      ensures id in old(clients) ==> unchanged(old(clients)[id])
    {
      if id in clients {
        clients := clients - {id};
      }
    }

    /** `clientTimestamp t` on socket `id`: `timestampResponse t` back, only while `id` is registered. */
    method ClientTimestamp(id: Id, t: int) returns (response: Option<int>)
      ensures response.Some? <==> id in clients
      ensures response.Some? ==> response.value == t
    {
      if id in clients {
        response := Some(t);
      } else {
        response := None;
      }
    }

    /**
     * One message arriving on socket `id`. Disconnection and timestamps go to the server's
     * own listeners; everything else is emitted on the session's socket, if it is registered.
     * No other session changes.
     */
    method Receive(id: Id, msg: InMsg, loader: Loader) returns (response: Option<int>)
      requires Valid()
      modifies this, if id in clients && !msg.Disconnect? && !msg.ClientTimestamp? then clients[id].Repr() else {}
      ensures Valid()
      ensures clients == if msg.Disconnect? then old(clients) - {id} else old(clients)
      ensures response == if msg.ClientTimestamp? && id in old(clients) then Some(msg.t) else None
      ensures !msg.Disconnect? && !msg.ClientTimestamp? && id in clients ==>
                clients[id].View() == Step(old(clients[id].View()), msg, loader)
      ensures forall o | o in clients && o != id :: clients[o].View() == old(clients[o].View())
    {
      response := None;
      if msg.Disconnect? {
        Disconnect(id);
      } else if msg.ClientTimestamp? {
        response := ClientTimestamp(id, msg.t);
      } else if id in clients {
        ghost var before := clients;
        assert Valid();
        Forward(id, msg, loader);
        assert clients == before;
      }
    }

    /** Emitting `msg` on the socket of the session registered under `id`; no other session changes. */
    method Forward(id: Id, msg: InMsg, loader: Loader)
      requires Valid() && id in clients
      modifies clients[id].Repr()
      ensures clients[id].View() == Step(old(clients[id].View()), msg, loader)
      ensures forall o | o in clients && o != id :: clients[o].View() == old(clients[o].View())
    {
      var s := clients[id];
      s.Dispatch(msg, loader);
      forall o | o in clients && o != id
        ensures clients[o].View() == old(clients[o].View())
      {
        assert clients[o].Repr() !! s.Repr();
      }
    }
  }

  /** A second `disconnect` for the same id finds nothing to delete: disconnection is idempotent. */
  lemma DisconnectTwice(clients: map<Id, RendererScene>, id: Id)
    ensures (clients - {id}) - {id} == clients - {id}
    ensures id !in clients ==> clients - {id} == clients
  {
  }
}
