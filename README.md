# CanConnection in Dafny

A model of `CanConnection` from python-uds: a small wrapper that lets several
clients share one python-can bus handle. The wrapper keeps the bus, a
notifier (python-can's dispatch thread) with its listeners, and a flag fixed
at construction that says whether the bus is borrowed (`is_external`).

- An owned connection registers one listener, starts a notifier with it and
  installs one acceptance filter when it is built. It takes more listeners
  later. On shutdown it stops the notifier, resets the bus, shuts the bus
  down and drops its reference to it.
- A borrowed connection only stores the bus. It has no notifier and no
  listeners, and its shutdown does nothing.
- `addFilter` reads the bus's filter list (possibly absent), appends
  `{can_id: filter, can_mask: 0xFFF, extended: False}` and installs the whole
  list again.
- `transmit` builds one message from its arguments, with the FD flag set and
  the declared length equal to the payload length, and sends it.

Files:

- `filter_table.dfy` (module `FilterTable`): filter entries, the list
  `addFilter` installs (`Appended`), the table after a run of `addFilter`
  calls (`AfterAddFilters`) and lemmas that the table only grows.
- `frames.dfy` (module `Frames`): the message object `transmit` fills in
  field by field (`Message`) and the frame it must produce (`MakeFrame`).
- `driver.dfy` (module `Driver`): the python-can collaborators as abstract
  state. `Bus` has its installed filters and a log of the driver calls made
  on it (`set_filters`, `send`, `reset`, `shutdown`), in order. `Notifier`
  has its listeners and a running flag. `Listener` holds one opaque
  `Callback`.
- `can_connection.dfy` (module `CanConnection`): the connection class, its
  invariant `Valid()` and two client methods that drive an owned and a
  borrowed connection through their lives.

`Valid()` is the connection invariant every operation keeps. A borrowed
connection has no notifier and no listeners. An owned one has a notifier
whose listener list is exactly the registry, bound to the connection's bus
and running while the connection holds that bus, and stopped once it has let
it go.

Where the Python code would raise `AttributeError`, the model returns
`Fail(...)` and changes nothing further. This covers `addCallback` on a
borrowed connection (there is no `__notifier`) and `addFilter`, `transmit`
and a repeated `shutdown` after an owned shutdown (`__bus` is `None`). The
code does not make shutdown idempotent. A second owned `shutdown` stops the
already stopped notifier and then fails on `None.reset()`.
`OwnedLifecycle` shows this.

## Model

| member | source | states |
|---|---|---|
| `CanConnection.CanConnection.constructor` | uds/uds_communications/TransportProtocols/Can/CanConnection.py:36-44 | keeps the bus and the flag. Owned: a fresh notifier with timeout 1.0 on the bus is running, the registry is exactly one fresh listener holding the callback, and the bus's filter list is the old list with the constructor's entry appended, installed by one `set_filters` call. Borrowed: no notifier, no listeners, and the bus is untouched |
| `CanConnection.CanConnection.AddCallback` | uds/uds_communications/TransportProtocols/Can/CanConnection.py:48-52 | owned: one fresh listener holding the callback goes at the end of the registry and the notifier's list, and earlier listeners keep their places. Borrowed: fails with `NoNotifier` and nothing changes |
| `CanConnection.CanConnection.AddFilter` | uds/uds_communications/TransportProtocols/Can/CanConnection.py:56-62 | the bus's filter list becomes `Appended(old list, filter)`, installed by exactly one `set_filters` call. With no bus it fails with `NoBus` |
| `CanConnection.CanConnection.Transmit` | uds/uds_communications/TransportProtocols/Can/CanConnection.py:66-73 | exactly one `send` of `MakeFrame(data, reqId, extended)` is logged, filters are unchanged and listeners are untouched. With no bus it fails with `NoBus` |
| `CanConnection.CanConnection.Shutdown` | uds/uds_communications/TransportProtocols/Can/CanConnection.py:75-80 | borrowed: succeeds, and the bus reference, the bus's filters and its call log are unchanged. Owned with a bus: the notifier is stopped, the bus gets `reset` then `shutdown` and nothing else, and the reference becomes null. Owned without a bus: the notifier is stopped and it fails with `NoBus` |
| `CanConnection.CanConnection.GetBus` | uds/uds_communications/TransportProtocols/Can/CanConnection.py:82-83 | returns the bus reference the connection currently holds |
| `CanConnection.OwnedLifecycle` | uds/uds_communications/TransportProtocols/Can/CanConnection.py:36-83 | owned connection with filter 0x100, a second callback, filter 0x200 and one transmission. The table is the two entries in order, the registry is both callbacks in order, and the bus log is both `set_filters` calls, the send, `reset` and `shutdown`. Afterwards `get_bus` is null and a second shutdown fails |
| `CanConnection.ExternalLifecycle` | uds/uds_communications/TransportProtocols/Can/CanConnection.py:36-83 | borrowed connection: `addCallback` fails, `shutdown` succeeds, the bus keeps its own filters with no call made on it, and `get_bus` still returns the same bus |
| `FilterTable.Appended` | uds/uds_communications/TransportProtocols/Can/CanConnection.py:57-61 | one entry longer than the reported list, which is kept in order as a prefix. The last entry is `{filter, 0xFFF, false}`. An absent list gives the single-entry list |
| `FilterTable.AddFiltersAppends` | uds/uds_communications/TransportProtocols/Can/CanConnection.py:56-62 | after any run of `addFilter` calls the table is the old entries followed by one entry per call, in call order. After at least one call a list is installed |
| `FilterTable.TableOnlyGrows` | uds/uds_communications/TransportProtocols/Can/CanConnection.py:56-62 | a run of k `addFilter` calls leaves the table k entries longer, with every earlier entry at the same position |
| `FilterTable.EntriesLength` | uds/uds_communications/TransportProtocols/Can/CanConnection.py:59 | a run of `addFilter` calls contributes one entry per call |
| `Frames.MakeFrame` | uds/uds_communications/TransportProtocols/Can/CanConnection.py:67-71 | the frame carries the given identifier, identifier kind and payload. Its declared length equals the payload length and its FD flag is set |
| `Frames.Message.constructor` | uds/uds_communications/TransportProtocols/Can/CanConnection.py:67 | a new message has the given identifier and identifier kind, an empty payload, length 0 and FD off |
| `Driver.Bus.SetFilters` | uds/uds_communications/TransportProtocols/Can/CanConnection.py:62 | the whole table is replaced and the call is logged |
| `Driver.Bus.Send` | uds/uds_communications/TransportProtocols/Can/CanConnection.py:73 | the message's field values at the time of the call are logged, and filters are unchanged |
| `Driver.Bus.Reset` | uds/uds_communications/TransportProtocols/Can/CanConnection.py:78 | the call is logged and filters are unchanged |
| `Driver.Bus.Shutdown` | uds/uds_communications/TransportProtocols/Can/CanConnection.py:79 | the call is logged and filters are unchanged |
| `Driver.Listener.constructor` | uds/uds_communications/TransportProtocols/Can/CanConnection.py:40-41 | the listener's `on_message_received` is the given callback |
| `Driver.CallbacksOf` | uds/uds_communications/TransportProtocols/Can/CanConnection.py:43 | the callbacks of a listener list, same length and same order |
| `Driver.Notifier.constructor` | uds/uds_communications/TransportProtocols/Can/CanConnection.py:42 | bound to the bus with the given listeners and timeout, and running |
| `Driver.Notifier.AddListener` | uds/uds_communications/TransportProtocols/Can/CanConnection.py:51 | the listener goes at the end, and the running flag is unchanged |
| `Driver.Notifier.Stop` | uds/uds_communications/TransportProtocols/Can/CanConnection.py:77 | dispatching stops, and the listener list is kept |

## Left out

- The notifier's background thread and the dispatch of received frames to callbacks. They are concurrency, so a notifier is only a running flag plus a listener list, and a `Callback` is an opaque handle that is never invoked.
- Acceptance filtering of inbound frames (id/mask matching). The driver does it, not this file. Only the installed filter list is modelled.
- The driver calls `set_filters`, `send`, `reset` and `shutdown`. They are foreign code, so each one is a logged state update on `Driver.Bus`. Driver-side failures of these calls are not modelled.
- `CanConnection.CanConnection.constructor`: requires a bus when the connection is owned. With `bus=None` the Python constructor raises inside python-can's `Notifier`, and a Dafny constructor cannot return an error.
- `CanConnection.CanConnection.Shutdown`: the order in which the notifier is stopped and the bus is reset is not visible in the model, because the two are separate objects with no shared log. The order of `reset` before `shutdown` is visible.
- `addFilter` in Python appends in place to the list object the bus returned before handing it back to `set_filters`. The model builds the new list as a value. The state after the call is the same, but aliasing of that list by other holders is not captured.
- A borrowed connection in Python has no `__notifier` or `__listeners` attributes at all. The model uses null and the empty list.
- Listener removal, error kinds beyond the two `AttributeError` cases, and fault isolation between listeners. The code has none of these.
- Message fields that `transmit` leaves at python-can's defaults (timestamp, remote and error flags, bit-rate switch). Payload length limits are not checked either, because the code does not check them.
- The `CanListener` base-class detail (lines 22-31) exists only for python-can's abstract-class check. The unused `fillArray` import is also left out.
- Idempotent shutdown and a `NoDispatchLoop` error. The code provides neither: a repeated owned shutdown raises, and `addCallback` on a borrowed connection raises `AttributeError`. The model follows the code.
