/** The mock live-update service: a timer-driven publisher of driver
    telemetry with a set of subscribers.

    The timer is not modelled as such: `Connect` receives the handle that
    `setInterval` would return, and each firing of the timer is an explicit
    call of `Tick`, which receives the position and heading and the two
    random draws behind speed and eta. */
module LiveFeed {
  import opened Wrappers

  /** A subscriber, known by its identity (listener functions are compared
      by reference). */
  type Listener = nat

  datatype DriverUpdate = DriverUpdate(lat: real, lng: real, heading: real, speed: int, eta: int)

  /** `Math.floor(r * 60 + 20)`: the emitted speed for a draw `r`. */
  function Speed(r: real): (v: int)
    ensures v as real <= r * 60.0 + 20.0 < v as real + 1.0
    ensures 0.0 <= r < 1.0 ==> 20 <= v <= 79
  {
    (r * 60.0 + 20.0).Floor
  }

  /** `Math.floor(r * 10 + 2)`: the emitted eta for a draw `r`. */
  function Eta(r: real): (v: int)
    ensures v as real <= r * 10.0 + 2.0 < v as real + 1.0
    ensures 0.0 <= r < 1.0 ==> 2 <= v <= 11
  {
    (r * 10.0 + 2.0).Floor
  }

  /** The function `subscribe` hands back: calling it removes `listener`. */
  datatype Unsubscriber = Unsubscriber(listener: Listener)

  class MockWebSocketService {
    var listeners: set<Listener>
    /** The `setInterval` handle, `None` for `null`. */
    var interval: Option<nat>

    /** How many timers this service has started and not cleared. */
    ghost var liveTimers: nat
    /** Every update each listener has been called with, in order. */
    ghost var received: map<Listener, seq<DriverUpdate>>

    /** A set handle is a positive timer id, and there is a running timer
        exactly when the handle is set: at most one, never leaked. */
    ghost predicate Valid()
      reads this
    {
      (interval.Some? ==> interval.value > 0) &&
      liveTimers == (if interval.Some? then 1 else 0)
    }

    predicate Connected()
      reads this
    {
      interval.Some?
    }

    ghost function Log(l: Listener): seq<DriverUpdate>
      reads this
    {
      if l in received then received[l] else []
    }

    constructor ()
      ensures Valid() && listeners == {} && interval == None && received == map[]
    {
      listeners := {};
      interval := None;
      liveTimers := 0;
      received := map[];
    }

    /** Starts the timer unless one is already running. `handle` is what
        `setInterval` returns, a positive id. */
    method Connect(handle: nat)
      requires Valid()
      requires handle > 0
      modifies this`interval, this`liveTimers
      ensures Valid() && Connected()
      ensures old(interval).Some? ==> interval == old(interval) && liveTimers == old(liveTimers)
      ensures old(interval).None? ==> interval == Some(handle)
    {
      if interval.Some? {
        return;
      }
      interval := Some(handle);
      liveTimers := liveTimers + 1;
    }

    /** Clears the timer if one is running; otherwise does nothing. */
    method Disconnect()
      requires Valid()
      modifies this`interval, this`liveTimers
      ensures Valid() && !Connected() && liveTimers == 0
      ensures old(interval).None? ==> liveTimers == old(liveTimers)
    {
      if interval.Some? {
        liveTimers := liveTimers - 1;
        interval := None;
      }
    }

    /** Adds the listener (a set: adding it again changes nothing) and
        returns its remover. */
    method Subscribe(l: Listener) returns (u: Unsubscriber)
      requires Valid()
      modifies this`listeners
      ensures Valid()
      ensures listeners == old(listeners) + {l} && u.listener == l
    {
      listeners := listeners + {l};
      u := Unsubscriber(l);
    }

    /** Calls a remover: deletes exactly its listener and reports whether it
        was still subscribed. */
    method Unsubscribe(u: Unsubscriber) returns (removed: bool)
      requires Valid()
      modifies this`listeners
      ensures Valid()
      ensures listeners == old(listeners) - {u.listener}
      ensures removed <==> u.listener in old(listeners)
    {
      removed := u.listener in listeners;
      listeners := listeners - {u.listener};
    }

    /** One firing of the timer: builds the update and calls every current
        listener with that same update. */
    method Tick(lat: real, lng: real, heading: real, speedDraw: real, etaDraw: real)
      returns (update: DriverUpdate)
      requires Valid() && Connected()
      modifies this`received
      ensures Valid()
      ensures update == DriverUpdate(lat, lng, heading, Speed(speedDraw), Eta(etaDraw))
      ensures forall l :: l in listeners ==> Log(l) == old(Log(l)) + [update]
      ensures forall l :: l !in listeners ==> Log(l) == old(Log(l))
    {
      update := DriverUpdate(lat, lng, heading, Speed(speedDraw), Eta(etaDraw));
      var pending := listeners;
      while pending != {}
        invariant pending <= listeners
        invariant forall l :: l in listeners && l !in pending ==> Log(l) == old(Log(l)) + [update]
        invariant forall l :: l in pending || l !in listeners ==> Log(l) == old(Log(l))
        decreases pending
      {
        var l :| l in pending;
        received := received[l := Log(l) + [update]];
        pending := pending - {l};
      }
    }
  }

  /** Two subscribers receive the same updates in the same order, and
      removing one does not affect delivery to the other. */
  method TwoSubscribers(ws: MockWebSocketService, a: Listener, b: Listener, handle: nat,
                        first: (real, real, real, real, real), second: (real, real, real, real, real))
    returns (u1: DriverUpdate, u2: DriverUpdate)
    requires ws.Valid() && handle > 0 && a != b
    modifies ws
    ensures ws.Valid() && ws.listeners == old(ws.listeners) + {b} - {a}
    ensures ws.Log(a) == old(ws.Log(a)) + [u1]
    ensures ws.Log(b) == old(ws.Log(b)) + [u1, u2]
  {
    ws.Connect(handle);
    var ua := ws.Subscribe(a);
    var ub := ws.Subscribe(b);
    assert ws.Log(a) == old(ws.Log(a)) && ws.Log(b) == old(ws.Log(b));
    u1 := ws.Tick(first.0, first.1, first.2, first.3, first.4);
    var removed := ws.Unsubscribe(ua);
    u2 := ws.Tick(second.0, second.1, second.2, second.3, second.4);
    assert ws.Log(b) == old(ws.Log(b)) + [u1] + [u2];
  }

  /** A screen that connects and subscribes on mount and unsubscribes and
      disconnects on unmount leaves no timer running and no listener behind
      (when it found none). */
  method MountThenUnmount(ws: MockWebSocketService, l: Listener, handle: nat)
    requires ws.Valid() && handle > 0 && l !in ws.listeners
    modifies ws
    ensures ws.Valid() && !ws.Connected() && ws.liveTimers == 0
    ensures ws.listeners == old(ws.listeners)
  {
    ws.Connect(handle);
    var unsub := ws.Subscribe(l);
    var _ := ws.Unsubscribe(unsub);
    ws.Disconnect();
  }
}
