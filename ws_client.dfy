/** The browser's WebSocket client service: one shared `WebSocketService`
    that connects, relays parsed server messages to a set of listeners and
    reconnects after a close. The browser socket and the timer are
    abstracted to the events they deliver: a socket opens, closes or
    receives a message, and the reconnect timer fires. */
module WsClient {
  import opened Js

  /** `WebSocket.readyState`. */
  datatype ReadyState = Connecting | Open | Closing | Closed

  /** An object's own properties in enumeration order, as `Object.keys`
      lists them. */
  type Payload = seq<(string, Obj)>

  /** A server message after `JSON.parse`: its `type`, the `data` object of
      a price update (symbol to quote fields) and the `alert` object of a
      triggered alert; `None` is an absent or null property. */
  datatype Message = Message(kind: Value, data: Option<Payload>, alert: Option<Obj>)

  /** A `Set` holds each element once. */
  ghost predicate Distinct<L>(s: seq<L>) {
    forall i, j :: 0 <= i < j < |s| ==> s[i] != s[j]
  }

  /** `Set.prototype.delete`: `s` without `x`, the others in their order. */
  function Without<L(==,!new)>(s: seq<L>, x: L): (r: seq<L>)
    ensures forall y :: y in r <==> y in s && y != x
    ensures |r| <= |s|
    ensures x !in s ==> r == s
    ensures Distinct(s) ==> Distinct(r)
  {
    if s == [] then []
    else
      var rest := Without(s[1..], x);
      assert forall y :: y in s <==> y == s[0] || y in s[1..];
      assert Distinct(s) ==> Distinct(s[1..]) && s[0] !in s[1..];
      if s[0] == x then rest else [s[0]] + rest
  }

  /** Adding a callback the set did not hold and then deleting it gives the
      set back, in the same order. */
  lemma {:induction false} AddThenRemove<L(!new)>(s: seq<L>, x: L)
    requires x !in s
    ensures Without(s + [x], x) == s
  {
    if s != [] {
      assert (s + [x])[1..] == s[1..] + [x];
      AddThenRemove(s[1..], x);
    }
  }

  /** Deleting a callback keeps the registration order of the others: what
      remains is `s` with exactly the occurrences of `x` dropped. */
  lemma {:induction false} WithoutKeepsOrder<L(!new)>(s: seq<L>, x: L, i: nat, j: nat)
    requires i < j < |s| && s[i] != x && s[j] != x
    ensures exists a, b :: 0 <= a < b < |Without(s, x)| && Without(s, x)[a] == s[i] && Without(s, x)[b] == s[j]
  {
    var rest := Without(s[1..], x);
    var w := Without(s, x);
    var kept := [s[0]] + rest;
    if i == 0 {
      assert s[j] == s[1..][j - 1];
      assert s[j] in rest;
      var b :| 0 <= b < |rest| && rest[b] == s[j];
      assert kept[0] == s[i] && kept[b + 1] == s[j];
      assert w == kept;
    } else {
      assert s[i] == s[1..][i - 1] && s[j] == s[1..][j - 1];
      WithoutKeepsOrder(s[1..], x, i - 1, j - 1);
      var a, b :| 0 <= a < b < |rest| && rest[a] == s[i] && rest[b] == s[j];
      if s[0] == x {
        assert w == rest;
      } else {
        assert kept[a + 1] == s[i] && kept[b + 1] == s[j];
        assert w == kept;
      }
    }
  }

  /** The service; `L` stands for the listener callbacks, compared by
      identity as a `Set` compares them. */
  class WebSocketService<L(==,!new)> {
    /** The socket `this.ws` refers to, as an index into `sockets`; `None`
        before the first socket is created. */
    var ws: Option<nat>
    /** The ready state of every socket the service has created, oldest
        first. The handlers of every one of them stay attached and refer to
        the service, not to their own socket. */
    var sockets: seq<ReadyState>
    /** `this.listeners`, in insertion order, which is the order `forEach`
        calls them in. */
    var listeners: seq<L>
    /** `this.reconnectTimer` holds a timeout handle. */
    var reconnectTimer: bool
    /** The scheduled reconnect has neither fired nor been cleared. */
    var timerPending: bool
    /** How many reconnects `setTimeout` has ever scheduled. */
    ghost var scheduled: nat
    /** `this.reconnectInterval`, in milliseconds. */
    const reconnectInterval: nat

    ghost predicate Valid()
      reads this
    {
      && (ws.Some? ==> ws.value < |sockets|)
      && Distinct(listeners)
      && scheduled == (if reconnectTimer then 1 else 0)
      && (timerPending ==> reconnectTimer)
    }

    /** The current socket is open. */
    predicate IsOpen()
      reads this
    {
      ws.Some? && ws.value < |sockets| && sockets[ws.value] == Open
    }

    constructor ()
      ensures Valid()
      ensures ws.None? && sockets == [] && listeners == []
      ensures !reconnectTimer && !timerPending && scheduled == 0
      ensures reconnectInterval == 2000
    {
      ws := None;
      sockets := [];
      listeners := [];
      reconnectTimer := false;
      timerPending := false;
      scheduled := 0;
      reconnectInterval := 2000;
    }

    /** `reconnect()`: schedules a reconnect only if no timeout handle was
        ever stored. Since nothing clears the handle, this happens at most
        once in the service's lifetime. */
    method Reconnect()
      requires Valid()
      modifies this
      ensures Valid()
      ensures ws == old(ws) && sockets == old(sockets) && listeners == old(listeners)
      ensures old(reconnectTimer) ==> timerPending == old(timerPending) && scheduled == old(scheduled)
      ensures !old(reconnectTimer) ==> timerPending && scheduled == old(scheduled) + 1
      ensures reconnectTimer && scheduled <= 1
    {
      if reconnectTimer {
        return;
      }
      reconnectTimer := true;
      timerPending := true;
      scheduled := scheduled + 1;
    }

    /** `connect()`. Nothing happens while the current socket is open. A
        socket that is still connecting does not stop a new one from being
        created. `throws` is whether the `WebSocket` constructor throws, in
        which case `this.ws` keeps its value and a reconnect is requested. */
    method Connect(throws: bool)
      requires Valid()
      modifies this
      ensures Valid()
      ensures listeners == old(listeners)
      ensures old(IsOpen()) ==>
        ws == old(ws) && sockets == old(sockets) && reconnectTimer == old(reconnectTimer)
        && timerPending == old(timerPending) && scheduled == old(scheduled)
      ensures !old(IsOpen()) && !throws ==>
        ws == Some(|old(sockets)|) && sockets == old(sockets) + [Connecting]
        && reconnectTimer == old(reconnectTimer) && timerPending == old(timerPending) && scheduled == old(scheduled)
      ensures !old(IsOpen()) && throws ==>
        ws == old(ws) && sockets == old(sockets) && reconnectTimer
        && timerPending == (old(timerPending) || !old(reconnectTimer))
        && scheduled == (if old(reconnectTimer) then old(scheduled) else old(scheduled) + 1)
    {
      if IsOpen() {
        return;
      }
      if throws {
        Reconnect();
        return;
      }
      ws := Some(|sockets|);
      sockets := sockets + [Connecting];
    }

    /** The `open` event of socket `i`: clears the pending reconnect, but
        leaves the handle in `reconnectTimer`. */
    method OnOpen(i: nat)
      requires Valid() && i < |sockets| && sockets[i] == Connecting
      modifies this
      ensures Valid()
      ensures ws == old(ws) && sockets == old(sockets)[i := Open] && listeners == old(listeners)
      ensures reconnectTimer == old(reconnectTimer) && scheduled == old(scheduled)
      ensures !timerPending
    {
      sockets := sockets[i := Open];
      if reconnectTimer {
        timerPending := false;
      }
    }

    /** The `close` event of socket `i`, current or stale: requests a
        reconnect, which is scheduled only the first time. */
    method OnClose(i: nat)
      requires Valid() && i < |sockets| && sockets[i] != Closed
      modifies this
      ensures Valid()
      ensures ws == old(ws) && sockets == old(sockets)[i := Closed] && listeners == old(listeners)
      ensures reconnectTimer && scheduled <= 1
      ensures old(reconnectTimer) ==> timerPending == old(timerPending) && scheduled == old(scheduled)
      ensures !old(reconnectTimer) ==> timerPending && scheduled == 1
    {
      sockets := sockets[i := Closed];
      Reconnect();
    }

    /** The reconnect timeout fires and calls `connect()`. Afterwards no
        reconnect is pending, and none can ever be scheduled again. */
    method OnTimerFire(throws: bool)
      requires Valid() && timerPending
      modifies this
      ensures Valid()
      ensures listeners == old(listeners) && reconnectTimer && !timerPending && scheduled == old(scheduled)
      ensures old(IsOpen()) ==> ws == old(ws) && sockets == old(sockets)
      ensures !old(IsOpen()) && !throws ==> ws == Some(|old(sockets)|) && sockets == old(sockets) + [Connecting]
      ensures !old(IsOpen()) && throws ==> ws == old(ws) && sockets == old(sockets)
    {
      timerPending := false;
      Connect(throws);
    }

    /** The `message` event of an open socket, current or stale, whose text
        `JSON.parse` turned into `parsed` (`None` when it throws). Returns the
        listeners called with the message, in call order. */
    method OnMessage(i: nat, parsed: Option<Message>) returns (called: seq<L>)
      requires Valid() && i < |sockets| && sockets[i] == Open
      ensures parsed.Some? ==> called == listeners
      ensures parsed.None? ==> called == []
    {
      called := [];
      if parsed.None? {
        return;
      }
      var k := 0;
      while k < |listeners|
        invariant 0 <= k <= |listeners|
        invariant called == listeners[..k]
      {
        called := called + [listeners[k]];
        k := k + 1;
      }
    }

    /** `addListener(cb)`: a callback already registered is not added again. */
    method AddListener(cb: L)
      requires Valid()
      modifies this
      ensures Valid()
      ensures listeners == if cb in old(listeners) then old(listeners) else old(listeners) + [cb]
      ensures ws == old(ws) && sockets == old(sockets)
      ensures reconnectTimer == old(reconnectTimer) && timerPending == old(timerPending) && scheduled == old(scheduled)
    {
      if cb !in listeners {
        listeners := listeners + [cb];
      }
    }

    /** `removeListener(cb)`: deletes `cb` and no other callback. */
    method RemoveListener(cb: L)
      requires Valid()
      modifies this
      ensures Valid()
      ensures listeners == Without(old(listeners), cb)
      ensures ws == old(ws) && sockets == old(sockets)
      ensures reconnectTimer == old(reconnectTimer) && timerPending == old(timerPending) && scheduled == old(scheduled)
    {
      listeners := Without(listeners, cb);
    }
  }
}
