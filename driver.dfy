/** The python-can collaborators a connection uses, reduced to the state a
    connection can observe: a bus with its installed filters and a log of the
    driver calls made on it, a notifier with its listeners and a running flag,
    and listeners that each hold one callback. */
module Driver {
  import opened FilterTable
  import opened Frames

  /** An opaque handle for a frame handler; frames are never dispatched here. */
  datatype Callback = Callback(handle: nat)

  /** One call a connection makes on its bus driver, in the order made. */
  datatype BusCall =
    | CallSetFilters(filters: seq<Filter>)
    | CallSend(frame: Frame)
    | CallReset
    | CallShutdown

  /** A bus handle. */
  class Bus {
    var filters: Option<seq<Filter>>
    var calls: seq<BusCall>

    /** A bus opened with the given `can_filters` (possibly none). */
    constructor (canFilters: Option<seq<Filter>>)
      ensures filters == canFilters && calls == []
    {
      filters := canFilters;
      calls := [];
    }

    /** `bus.set_filters(fs)`: replaces the whole table. */
    method SetFilters(fs: seq<Filter>)
      modifies this
      ensures filters == Some(fs)
      ensures calls == old(calls) + [CallSetFilters(fs)]
    {
      filters := Some(fs);
      calls := calls + [CallSetFilters(fs)];
    }

    /** `bus.send(msg)`: the message's field values at the time of the call go out. */
    method Send(msg: Message)
      modifies this
      ensures filters == old(filters)
      ensures calls == old(calls) + [CallSend(msg.Value())]
    {
      calls := calls + [CallSend(msg.Value())];
    }

    /** `bus.reset()`. */
    method Reset()
      modifies this
      ensures filters == old(filters)
      ensures calls == old(calls) + [CallReset]
    {
      calls := calls + [CallReset];
    }

    /** `bus.shutdown()`. */
    method Shutdown()
      modifies this
      ensures filters == old(filters)
      ensures calls == old(calls) + [CallShutdown]
    {
      calls := calls + [CallShutdown];
    }
  }

  /** A listener whose `on_message_received` is the given callback. */
  class Listener {
    const onMessageReceived: Callback

    constructor (callback: Callback)
      ensures onMessageReceived == callback
    {
      onMessageReceived := callback;
    }
  }

  /** The callbacks of a list of listeners, in the same order. */
  function CallbacksOf(listeners: seq<Listener>): (r: seq<Callback>)
    ensures |r| == |listeners|
    ensures forall i :: 0 <= i < |listeners| ==> r[i] == listeners[i].onMessageReceived
  {
    if listeners == [] then [] else [listeners[0].onMessageReceived] + CallbacksOf(listeners[1..])
  }

  /** A notifier bound to one bus: its listeners and whether it is dispatching. */
  class Notifier {
    const bus: Bus
    const timeout: real
    var listeners: seq<Listener>
    var running: bool

    /** `can.Notifier(bus, listeners, timeout)` starts dispatching at once. */
    constructor (bus: Bus, listeners: seq<Listener>, timeout: real)
      ensures this.bus == bus && this.timeout == timeout
      ensures this.listeners == listeners && running
    {
      this.bus := bus;
      this.timeout := timeout;
      this.listeners := listeners;
      running := true;
    }

    /** `notifier.add_listener(l)`: `l` goes at the end. */
    method AddListener(l: Listener)
      modifies this
      ensures listeners == old(listeners) + [l]
      ensures running == old(running)
    {
      listeners := listeners + [l];
    }

    /** `notifier.stop()`: dispatching ends; the listener list is kept. */
    method Stop()
      modifies this
      ensures !running
      ensures listeners == old(listeners)
    {
      running := false;
    }
  }
}
