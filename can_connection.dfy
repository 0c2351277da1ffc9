/** A connection that lets several clients share one CAN bus handle.

    Whether the connection owns the bus is fixed when it is built. An owned
    connection starts a notifier with one listener and installs one filter;
    it accepts further listeners, and on shutdown stops the notifier, resets
    and shuts down the bus and drops its reference. A borrowed (external)
    connection only keeps the bus: it has no notifier, no listeners, and its
    shutdown does nothing.

    Where the Python code would raise `AttributeError` (no notifier on a
    borrowed connection, no bus after an owned shutdown), the operation
    returns `Fail` and changes nothing further. */
module CanConnection {
  import opened FilterTable
  import opened Frames
  import opened Driver

  /** Why an operation raised. */
  datatype Error =
    | NoNotifier  // a borrowed connection has no `__notifier`
    | NoBus       // `__bus` is `None`

  datatype Outcome = Pass | Fail(error: Error)

  class CanConnection {
    var bus: Bus?
    const isExternal: bool
    var notifier: Notifier?
    var listeners: seq<Listener>

    /** The connection invariant: a borrowed connection has neither notifier
        nor listeners; an owned one has a notifier holding exactly the
        registered listeners, bound to the bus and running for as long as the
        connection still holds the bus. */
    ghost predicate Valid()
      reads this, notifier
    {
      && (isExternal ==> notifier == null && listeners == [])
      && (!isExternal ==>
            && notifier != null
            && notifier.listeners == listeners
            && (bus != null ==> notifier.bus == bus && notifier.running)
            && (bus == null ==> !notifier.running))
    }

    /** `CanConnection(callback, filter, bus, is_external)`. */
    constructor (callback: Callback, filter: int, bus: Bus?, isExternal: bool := false)
      requires isExternal || bus != null
      modifies bus
      ensures Valid()
      ensures this.bus == bus && this.isExternal == isExternal
      ensures isExternal ==> notifier == null && listeners == []
      ensures isExternal && bus != null ==>
        bus.filters == old(bus.filters) && bus.calls == old(bus.calls)
      ensures !isExternal ==>
        && fresh(notifier) && notifier.bus == bus && notifier.running && notifier.timeout == 1.0
        && |listeners| == 1 && fresh(listeners[0]) && CallbacksOf(listeners) == [callback]
        && bus.filters == Some(Appended(old(bus.filters), filter))
        && bus.calls == old(bus.calls) + [CallSetFilters(Appended(old(bus.filters), filter))]
    {
      this.bus := bus;
      this.isExternal := isExternal;
      if isExternal {
        notifier := null;
        listeners := [];
      } else {
        var listener := new Listener(callback);
        notifier := new Notifier(bus, [listener], 1.0);
        listeners := [listener];
      }
      new;
      if !isExternal {
        var _ := AddFilter(filter);
      }
    }

    /** `addCallback(callback)`: a new listener for `callback` goes at the end
        of both the notifier's list and the registry. */
    method AddCallback(callback: Callback) returns (r: Outcome)
      requires Valid()
      modifies this`listeners, notifier
      ensures Valid()
      ensures r == if isExternal then Fail(NoNotifier) else Pass
      ensures isExternal ==> listeners == old(listeners)
      ensures !isExternal ==>
        && |listeners| == |old(listeners)| + 1
        && listeners[..|old(listeners)|] == old(listeners)
        && fresh(listeners[|old(listeners)|])
        && CallbacksOf(listeners) == CallbacksOf(old(listeners)) + [callback]
      ensures notifier != null ==> notifier.running == old(notifier.running)
    {
      if isExternal {
        return Fail(NoNotifier);
      }
      var listener := new Listener(callback);
      notifier.AddListener(listener);
      listeners := listeners + [listener];
      r := Pass;
    }

    /** `addFilter(filter)`: the bus's list with one entry for `filter`
        appended is installed, replacing the whole table. */
    method AddFilter(filter: int) returns (r: Outcome)
      requires Valid()
      modifies bus
      ensures Valid()
      ensures r == if bus == null then Fail(NoBus) else Pass
      ensures bus != null ==>
        && bus.filters == Some(Appended(old(bus.filters), filter))
        && bus.calls == old(bus.calls) + [CallSetFilters(Appended(old(bus.filters), filter))]
    {
      if bus == null {
        return Fail(NoBus);
      }
      var filters := bus.filters;
      var table: seq<Filter>;
      if filters.Some? {
        table := filters.value + [Filter(filter, 0xFFF, false)];
      } else {
        table := [Filter(filter, 0xFFF, false)];
      }
      bus.SetFilters(table);
      r := Pass;
    }

    /** `transmit(data, reqId, extended)`: exactly one frame goes out, built
        from the arguments; filters and listeners are untouched. */
    method Transmit(data: seq<byte>, reqId: int, extended: bool := false) returns (r: Outcome)
      requires Valid()
      modifies bus
      ensures Valid()
      ensures r == if bus == null then Fail(NoBus) else Pass
      ensures bus != null ==>
        && bus.filters == old(bus.filters)
        && bus.calls == old(bus.calls) + [CallSend(MakeFrame(data, reqId, extended))]
    {
      var canMsg := new Message(reqId, extended);
      canMsg.dlc := |data|;
      canMsg.data := data;
      canMsg.isFd := true;
      if bus == null {
        return Fail(NoBus);
      }
      bus.Send(canMsg);
      r := Pass;
    }

    /** `shutdown()`: nothing for a borrowed connection; for an owned one the
        notifier stops, the bus is reset and then shut down, and the
        reference to it is dropped. A second owned shutdown stops the
        (already stopped) notifier and then fails for want of a bus. */
    method Shutdown() returns (r: Outcome)
      requires Valid()
      modifies this`bus, notifier, bus
      ensures Valid()
      ensures listeners == old(listeners)
      ensures isExternal ==>
        && r == Pass && bus == old(bus)
        && (bus != null ==> bus.filters == old(bus.filters) && bus.calls == old(bus.calls))
      ensures !isExternal ==>
        && bus == null && !notifier.running && notifier.listeners == old(notifier.listeners)
        && r == (if old(bus) == null then Fail(NoBus) else Pass)
      ensures !isExternal && old(bus) != null ==>
        && old(bus).filters == old(bus.filters)
        && old(bus).calls == old(bus.calls) + [CallReset, CallShutdown]
    {
      if isExternal == false {
        notifier.Stop();
        if bus == null {
          return Fail(NoBus);
        }
        bus.Reset();
        bus.Shutdown();
        bus := null;
      }
      r := Pass;
    }

    /** `get_bus()`. */
    method GetBus() returns (b: Bus?)
      ensures b == bus
    {
      b := bus;
    }
  }

  /** An owned connection through its whole life: filter 0x100 at
      construction, a second callback, filter 0x200, one transmission, then
      two shutdowns. Returns what the bus and the connection show along the
      way. */
  method OwnedLifecycle(first: Callback, second: Callback, payload: seq<byte>)
    returns (filters: Option<seq<Filter>>, calls: seq<BusCall>, registered: seq<Callback>,
             busAfter: Bus?, again: Outcome)
    ensures filters == Some([Filter(0x100, 0xFFF, false), Filter(0x200, 0xFFF, false)])
    ensures registered == [first, second]
    ensures calls == [
      CallSetFilters([Filter(0x100, 0xFFF, false)]),
      CallSetFilters([Filter(0x100, 0xFFF, false), Filter(0x200, 0xFFF, false)]),
      CallSend(Frame(0x7E0, false, |payload|, payload, true)),
      CallReset,
      CallShutdown]
    ensures busAfter == null
    ensures again == Fail(NoBus)
  {
    var bus := new Bus(None);
    var c := new CanConnection(first, 0x100, bus);
    var r := c.AddCallback(second);
    r := c.AddFilter(0x200);
    assert Appended(Some([Entry(0x100)]), 0x200) == [Entry(0x100), Entry(0x200)];
    r := c.Transmit(payload, 0x7E0);
    filters := bus.filters;
    registered := CallbacksOf(c.listeners);
    r := c.Shutdown();
    calls := bus.calls;
    busAfter := c.GetBus();
    again := c.Shutdown();
  }

  /** A borrowed connection: it installs nothing, refuses a second callback,
      and its shutdown leaves the bus in place and untouched. */
  method ExternalLifecycle(callback: Callback, installed: seq<Filter>)
    returns (added: Outcome, closed: Outcome, filters: Option<seq<Filter>>,
             calls: seq<BusCall>, sameBus: bool)
    ensures added == Fail(NoNotifier)
    ensures closed == Pass
    ensures filters == Some(installed)
    ensures calls == []
    ensures sameBus
  {
    var bus := new Bus(Some(installed));
    var c := new CanConnection(callback, 0x100, bus, true);
    added := c.AddCallback(callback);
    closed := c.Shutdown();
    var b := c.GetBus();
    sameBus := b == bus;
    filters := bus.filters;
    calls := bus.calls;
  }
}
