/** The client's socket service: a registry of callbacks per event name,
    the transport handle with its connect/disconnect guards, and the
    forwarding of transport events to registered callbacks. Callbacks are
    identified by a number; the transport is a handle with a connected flag. */
module SocketService {
  import opened Common

  /** A registered callback, compared by identity. */
  type Callback = nat

  /** The callbacks registered for `event`, or none. */
  function ListenersOf(listeners: map<string, seq<Callback>>, event: string): (r: seq<Callback>)
    ensures event !in listeners ==> r == []
    ensures event in listeners ==> r == listeners[event]
  {
    if event in listeners then listeners[event] else []
  }

  /** `indexOf` followed by `splice(index, 1)`: drops the first occurrence. */
  function RemoveFirst(s: seq<Callback>, cb: Callback): (r: seq<Callback>)
    ensures cb !in s ==> r == s
    ensures cb in s ==> |r| == |s| - 1
  {
    if s == [] then []
    else if s[0] == cb then s[1..]
    else [s[0]] + RemoveFirst(s[1..], cb)
  }

  /** The element removed is the first occurrence: what precedes it is kept,
      and so is everything after it, in order. */
  lemma {:induction false} RemoveFirstSplits(s: seq<Callback>, cb: Callback)
    requires cb in s
    ensures var i := IndexOf(s, cb);
      0 <= i < |s| && s[i] == cb && cb !in s[..i]
      && RemoveFirst(s, cb) == s[..i] + s[i + 1..]
  {
    if s[0] == cb {
      assert s[..0] == [];
    } else {
      RemoveFirstSplits(s[1..], cb);
      var i := IndexOf(s[1..], cb);
      assert s[..i + 1] == [s[0]] + s[1..][..i];
      assert s[i + 2..] == s[1..][i + 1..];
    }
  }

  /** Removing takes away exactly one copy of a registered callback. */
  lemma {:induction false} RemoveFirstMultiset(s: seq<Callback>, cb: Callback)
    ensures multiset(RemoveFirst(s, cb)) == multiset(s) - multiset{cb}
  {
    if s == [] {
    } else if s[0] == cb {
      assert s == [s[0]] + s[1..];
    } else {
      RemoveFirstMultiset(s[1..], cb);
      assert s == [s[0]] + s[1..];
    }
  }

  /** `on` then `off` of a callback not yet registered restores the list.
      When it was registered earlier, `off` removes that earlier copy
      instead, so the order changes. */
  lemma {:induction false} OffUndoesOn(s: seq<Callback>, cb: Callback)
    requires cb !in s
    ensures RemoveFirst(s + [cb], cb) == s
  {
    if s == [] {
    } else {
      assert (s + [cb])[0] == s[0] && (s + [cb])[1..] == s[1..] + [cb];
      OffUndoesOn(s[1..], cb);
    }
  }

  /** The connection status reported to the `connection:status` listeners. */
  datatype Status = Connected | Disconnected | Failed

  /** What the transport delivers to the service's own socket handlers. */
  datatype TransportEvent =
    | Connect | Disconnect | ConnectError
    | Broadcast | History | ListenersUpdate | UserIdentified | ServerError

  /** The event name a transport event is forwarded under. */
  function ForwardedName(e: TransportEvent): (name: string)
    ensures e.Connect? || e.Disconnect? || e.ConnectError? <==> name == "connection:status"
    ensures e.Broadcast? <==> name == "chat:message"
  {
    match e
    case Connect => "connection:status"
    case Disconnect => "connection:status"
    case ConnectError => "connection:status"
    case Broadcast => "chat:message"
    case History => "chat:history"
    case ListenersUpdate => "listeners:update"
    case UserIdentified => "user:identified"
    case ServerError => "error"
  }

  /** The status payload of a connection event. */
  function StatusOf(e: TransportEvent): (s: Option<Status>)
    ensures s.Some? <==> ForwardedName(e) == "connection:status"
  {
    match e
    case Connect => Some(Connected)
    case Disconnect => Some(Disconnected)
    case ConnectError => Some(Failed)
    case _ => None
  }

  /** A message the service puts on the transport. */
  datatype Outgoing = IdentifyOut(identity: UserIdentity) | MessageOut(message: string)

  /** A transport handle; socket.io marks it connected once the handshake ends. */
  class Transport {
    var connected: bool

    constructor ()
      ensures !connected
    {
      connected := false;
    }
  }

  class Service {
    var socket: Transport?
    var listeners: map<string, seq<Callback>>

    constructor ()
      ensures socket == null && listeners == map[]
    {
      socket := null;
      listeners := map[];
    }

    /** `isConnected`: a handle exists and is connected. */
    function IsConnected(): (r: bool)
      reads this, socket
      ensures r <==> socket != null && socket.connected
    {
      socket != null && socket.connected
    }

    /** `connect`: nothing when the current handle is connected; otherwise a
        new handle replaces it (a handle that is not yet connected is
        replaced without being closed). */
    method Connect()
      modifies this
      ensures old(socket != null && socket.connected) ==> socket == old(socket)
      ensures !old(socket != null && socket.connected) ==> socket != null && fresh(socket) && !socket.connected
      ensures listeners == old(listeners)
    {
      if socket != null && socket.connected {
        return;
      }
      socket := new Transport();
    }

    /** `disconnect`: closes and drops the handle, if any. */
    method Disconnect()
      modifies this, socket
      ensures socket == null && !IsConnected()
      ensures old(socket) != null ==> !old(socket).connected
      ensures listeners == old(listeners)
    {
      if socket != null {
        socket.connected := false;
        socket := null;
      }
    }

    /** `identify`: sent only when a handle exists. */
    method Identify(identity: UserIdentity) returns (sent: Option<Outgoing>)
      ensures sent.Some? <==> socket != null
      ensures sent.Some? ==> sent.value == IdentifyOut(identity)
    {
      if socket == null {
        return None;
      }
      sent := Some(IdentifyOut(identity));
    }

    /** `sendMessage`: sent only when a handle exists. */
    method SendMessage(message: string) returns (sent: Option<Outgoing>)
      ensures sent.Some? <==> socket != null
      ensures sent.Some? ==> sent.value == MessageOut(message)
    {
      if socket == null {
        return None;
      }
      sent := Some(MessageOut(message));
    }

    /** `on`: appends to the event's list, creating it; duplicates allowed. */
    method On(event: string, cb: Callback)
      modifies this
      ensures listeners == old(listeners)[event := ListenersOf(old(listeners), event) + [cb]]
      ensures socket == old(socket)
    {
      listeners := listeners[event := ListenersOf(listeners, event) + [cb]];
    }

    /** `off`: drops the first occurrence of the callback from the event's
        list; other events, and an absent event, are untouched. */
    method Off(event: string, cb: Callback)
      modifies this
      ensures event in old(listeners) ==> listeners == old(listeners)[event := RemoveFirst(old(listeners)[event], cb)]
      ensures event !in old(listeners) ==> listeners == old(listeners)
      ensures socket == old(socket)
    {
      if event in listeners {
        listeners := listeners[event := RemoveFirst(listeners[event], cb)];
      }
    }

    /** `emit`: calls the event's callbacks in registration order; the
        result lists the calls made. */
    method Emit(event: string) returns (called: seq<Callback>)
      ensures called == ListenersOf(listeners, event)
    {
      called := [];
      if event in listeners {
        var list := listeners[event];
        var i := 0;
        while i < |list|
          invariant 0 <= i <= |list|
          invariant called == list[..i]
        {
          called := called + [list[i]];
          i := i + 1;
        }
        assert list[..|list|] == list;
      }
    }

    /** A transport event on the current handle: the connected flag follows
        connect and disconnect, and the event is forwarded to its listeners. */
    method OnTransport(e: TransportEvent) returns (name: string, status: Option<Status>, called: seq<Callback>)
      requires socket != null
      modifies socket
      ensures name == ForwardedName(e) && status == StatusOf(e)
      ensures called == ListenersOf(listeners, name)
      ensures e.Connect? ==> socket.connected
      ensures e.Disconnect? ==> !socket.connected
      ensures !e.Connect? && !e.Disconnect? ==> socket.connected == old(socket.connected)
    {
      if e.Connect? {
        socket.connected := true;
      } else if e.Disconnect? {
        socket.connected := false;
      }
      name := ForwardedName(e);
      status := StatusOf(e);
      called := Emit(name);
    }
  }

  /** Registering the same callback twice and removing it once leaves it
      called once; callbacks on other events are unaffected. */
  method DuplicateRegistrationSurvivesOneOff(event: string, other: string, a: Callback, b: Callback)
    returns (calledHere: seq<Callback>, calledThere: seq<Callback>)
    requires event != other && a != b
    ensures calledHere == [b, a] && calledThere == [b]
  {
    var s := new Service();
    s.On(event, a);
    s.On(event, b);
    s.On(event, a);
    s.On(other, b);
    s.Off(event, a);
    calledHere := s.Emit(event);
    calledThere := s.Emit(other);
  }
}
