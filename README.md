# KNX Sentinel bus monitor, connection manager and dashboard, in Dafny

This project models the core of KNX Sentinel, a monitor for a KNX building
bus. It has three parts.

- **The bus monitor** (`monitor.dfy`, module `Monitor`). It normalises every
  received telegram into a record: timestamp, direction, source, destination,
  payload and payload type. It keeps the 1000 most recent records,
  most-recent-first, in a ring of 1000 array slots, and appends each new
  record to the queue of every registered subscriber. Subscribers come and go
  with `Subscribe` and `Unsubscribe`. `GetHistory` returns a snapshot.
- **The connection manager** (`connection.dfy`, module `Connection`). It
  holds an optional handle to the bus library's connection object and a
  `connected` flag. What the library does (building the object, starting it,
  stopping it) is a parameter of each call.
- **The browser dashboard** (`dashboard.dfy`, module `Dashboard`). It holds
  the live table of rows, newest first and at most 500. It also holds the
  message counters, a 30-point chart of per-second counts, and the pause and
  socket flags.

`bounded_seq.dfy` (module `BoundedSeq`) holds the bounded most-recent-first
sequence that both the history and the table are: push in front, and drop the
oldest element once the capacity is reached. Its lemmas say that pushing
elements one by one leaves them in reverse order, truncated to the capacity.
`wrappers.dfy` holds `Option` and `Result`.

Each class method is proved against a specification function or the previous
state. Examples: `ProcessTelegram` ends with
`history == Ingest(old(history), …)`, and `FetchHistory` ends with
`rows == Take(RowsOf(history) + old(rows), 500)`. The lemmas then prove what
the source promises about those functions: ordering, eviction, delivery,
the invariant, and the sliding window.

The dashboard fetches `/api/history` (app.js:159) and listens on
`/ws/telegrams` (app.js:87), expecting the monitor's records there. No file
of the source serves those routes or constructs a `BusMonitor`, so the link
between the two is the wiring app.js expects, not one the program makes. The
model gives the dashboard the monitor's `Record` values directly: `null`
becomes `None`, and the dict key `type` becomes the field `typeName`.

Two behaviours of the source that the model keeps as written:

- A failed `start` keeps the handle. `connection.py:31` assigns `self.xknx`
  before `connection.py:32` starts it, so when starting fails the handle
  stays set and `connected` is false. The guard at `connection.py:20` then
  refuses every later `start` until a `stop` succeeds.
  `Connection.FailedConnectSticks` proves this.
- An exception from `queue.put` at `monitor.py:42` would leave the fan-out
  loop through the outer `try` at `monitor.py:36-45`, skipping the remaining
  subscribers. The queues are unbounded `asyncio.Queue`s, whose `put` never
  raises, so the model's `Put` always succeeds.

## Model

| member | source | states |
|---|---|---|
| `Monitor.Parse` | knx-sentinel-2/app/monitor.py:47-60 | normalisation succeeds exactly when no conversion raises; timestamp, direction value, source and destination are always filled; a missing or false payload gives payload None and type "Unknown", otherwise the payload's string form and its class name |
| `Monitor.BusMonitor.constructor` | knx-sentinel-2/app/monitor.py:12-18 | a new monitor has an empty history of capacity 1000 and no subscribers |
| `Monitor.BusMonitor.AppendLeft` | knx-sentinel-2/app/monitor.py:38 | prepending to the ring buffer makes the history the new record followed by the old history, truncated to 1000 (the oldest is evicted); the ring invariant is kept |
| `Monitor.BusMonitor.ProcessTelegram` | knx-sentinel-2/app/monitor.py:34-45 | a record that normalises is prepended to the history and appended to every registered queue; queues outside the registry and the registry itself are unchanged; when normalisation fails the history and every queue are unchanged and no error reaches the caller |
| `Monitor.Subscriber.Put` | knx-sentinel-2/app/monitor.py:42 | putting onto a queue appends the record at its end |
| `Monitor.BusMonitor.Subscribe` | knx-sentinel-2/app/monitor.py:62-66 | returns a fresh, empty queue that was not registered before; the registry becomes the old one plus that queue; the history is unchanged |
| `Monitor.BusMonitor.Unsubscribe` | knx-sentinel-2/app/monitor.py:68-71 | removes only the given queue and is a no-op for an unregistered one; no queue's contents change |
| `Monitor.BusMonitor.GetHistory` | knx-sentinel-2/app/monitor.py:73-75 | returns a sequence equal to the current history, most recent first, and changes nothing |
| `BoundedSeq.PushFrontShape` | knx-sentinel-2/app/monitor.py:16 | within capacity, one push puts the element first; below capacity the length grows by one and earlier elements keep their order; at capacity exactly the last element is dropped; the length never exceeds the capacity |
| `BoundedSeq.PushFrontTake` | knx-sentinel-2/app/monitor.py:38 | truncating to the capacity before a push gives the same sequence as truncating after it |
| `BoundedSeq.PushAllReverses` | knx-sentinel-2/app/monitor.py:38 | pushing elements one by one leaves them in reverse order in front of the starting sequence, truncated to the capacity |
| `Monitor.HistoryAfterPushesAccepted` | knx-sentinel-2/app/monitor.py:36-45 | ingesting a sequence of telegrams pushes exactly the accepted records, in order; a telegram that fails to normalise leaves no trace and does not stop later ones |
| `Monitor.HistoryKeepsLatest` | knx-sentinel-2/app/monitor.py:16-38 | starting from an empty history, ingesting E0..Ek leaves the last min(k+1, 1000) accepted records in reverse ingestion order |
| `Monitor.HistoryBelowCapacity` | knx-sentinel-2/app/monitor.py:16-38 | with at most 1000 accepted records, the history holds all of them in reverse ingestion order |
| `Monitor.HistoryAboveCapacity` | knx-sentinel-2/app/monitor.py:16-38 | with more than 1000 accepted records, the history holds exactly the 1000 newest, newest first |
| `Monitor.QueueReceivesAccepted` | knx-sentinel-2/app/monitor.py:41-42 | a queue registered through a run of telegrams receives exactly their accepted records, in ingestion order, after what it held, with no gaps and no duplicates |
| `Monitor.TwoEventScenario` | knx-sentinel-2/app/monitor.py:36-60 | A without payload then B with payload: a subscriber gets [A, B], the history is [B, A], A's type is "Unknown" and B's is its payload's class name |
| `Connection.ConnectionManager.constructor` | knx-sentinel-2/app/connection.py:11-16 | a fresh manager holds no handle and is not connected |
| `Connection.ConnectionManager.Start` | knx-sentinel-2/app/connection.py:18-38 | refused with no change while a handle is held; otherwise success leaves a fresh handle and connected; a connect failure keeps the new handle and leaves the manager disconnected; a construction failure leaves no handle and disconnected; nothing is raised |
| `Connection.ConnectionManager.Stop` | knx-sentinel-2/app/connection.py:40-46 | with a handle, clears it and sets connected to false; without one, a no-op; an exception from the library's stop reaches the caller and leaves the state unchanged |
| `Connection.ConnectionManager.GetXknx` | knx-sentinel-2/app/connection.py:48-49 | returns the current handle and changes nothing |
| `Connection.RunKeepsConsistent` | knx-sentinel-2/app/connection.py:14-45 | every sequence of start and stop calls keeps the invariant that being connected implies holding a handle |
| `Connection.FailedConnectSticks` | knx-sentinel-2/app/connection.py:20-37 | after a connect failure, no sequence of calls without a successful stop ever connects; the handle stays and the manager stays disconnected |
| `Connection.StopThenStart` | knx-sentinel-2/app/connection.py:40-46 | from any consistent state a successful stop leaves no handle and disconnected, and a start afterwards behaves as on a fresh manager |
| `Dashboard.DirectionClass` | knx-sentinel-2/app/frontend/assets/js/app.js:125 | the direction cell has class dir-in exactly when the direction is "Incoming", dir-out otherwise |
| `Dashboard.DirectionArrow` | knx-sentinel-2/app/frontend/assets/js/app.js:126 | the arrow is ↓ exactly when the direction is "Incoming", ↑ otherwise |
| `Dashboard.RowOf` | knx-sentinel-2/app/frontend/assets/js/app.js:124-134 | a record's row keeps its timestamp for the time cell, has the direction class, arrow and text that the direction gives, shows source, destination and payload type as they are, and shows the payload through the "-" rule |
| `Dashboard.DirectionText` | knx-sentinel-2/app/frontend/assets/js/app.js:130 | an empty direction reads "Unknown", any other is shown as is, so the text is never empty |
| `Dashboard.PayloadText` | knx-sentinel-2/app/frontend/assets/js/app.js:134 | a missing or empty payload shows as "-"; any other payload is shown as is |
| `Dashboard.RowsOf` | knx-sentinel-2/app/frontend/assets/js/app.js:161-164 | the rows for a list of records are one row per record, in the same order |
| `Dashboard.MonitorRecordDisplay` | knx-sentinel-2/app/frontend/assets/js/app.js:125-134 | a record the monitor built has the incoming style exactly when its telegram was incoming, and one built without payload shows "-" and type "Unknown" |
| `Dashboard.SlideAllKeepsLatest` | knx-sentinel-2/app/frontend/assets/js/app.js:68-78 | after any number of ticks the chart keeps its length and shows the latest points: the old window followed by the new counts, cut to the last 30 |
| `Dashboard.DashboardState.constructor` | knx-sentinel-2/app/frontend/assets/js/app.js:5-12 | the page starts disconnected, not paused, with zero counters, 30 zero chart points and an empty table |
| `Dashboard.DashboardState.AddTableRow` | knx-sentinel-2/app/frontend/assets/js/app.js:137-143 | the new row goes first and the last row is dropped past 500 rows; at most 500 rows is preserved |
| `Dashboard.DashboardState.ProcessTelegram` | knx-sentinel-2/app/frontend/assets/js/app.js:112-118 | msgCount and currentSecondCount each grow by exactly one and exactly one row is added in front |
| `Dashboard.DashboardState.OnMessage` | knx-sentinel-2/app/frontend/assets/js/app.js:96-100 | while paused a socket message changes no counter and no row; otherwise it is processed |
| `Dashboard.FetchStep` | knx-sentinel-2/app/frontend/assets/js/app.js:161-164 | one step of the last-to-first loop: prepending the row of item i to the rows of the items after it gives the rows from item i on, under the same 500-row truncation |
| `Dashboard.DashboardState.FetchHistory` | knx-sentinel-2/app/frontend/assets/js/app.js:157-168 | the last-to-first loop of prepends leaves the table as the fetched history in its own order, followed by the earlier rows, truncated to 500; both counters grow by the history's length; a failed fetch changes nothing |
| `Dashboard.DashboardState.Tick` | knx-sentinel-2/app/frontend/assets/js/app.js:68-79 | the chart drops its first point and appends this second's count, so it keeps 30 points; the count is returned as the rate shown and then reset to 0 |
| `Dashboard.DashboardState.TogglePause` | knx-sentinel-2/app/frontend/assets/js/app.js:171-177 | flips paused, so two clicks restore the original value |
| `Dashboard.DashboardState.ClearTable` | knx-sentinel-2/app/frontend/assets/js/app.js:179-184 | empties the table and leaves msgCount (and every other field) unchanged |
| `Dashboard.DashboardState.SocketOpened` | knx-sentinel-2/app/frontend/assets/js/app.js:90-94 | an opened socket marks the page connected |
| `Dashboard.DashboardState.SocketClosed` | knx-sentinel-2/app/frontend/assets/js/app.js:102-106 | a closed socket marks the page disconnected |
| `Dashboard.StatusText` | knx-sentinel-2/app/frontend/assets/js/app.js:146-154 | the status reads "Connected" exactly when connected, "Disconnected" otherwise |

## Left out

- `BusMonitor.start` and `_telegram_received_cb` (monitor.py:20-32): callback registration with the bus library and `asyncio.create_task` scheduling. Each ingestion is one atomic sequential step. Interleavings of concurrent ingestions and the order across subscribers cannot be expressed in this sequential model.
- Connection.ConnectionManager.Start: each call of `Start` or `Stop` is one atomic step. In the source both are `async`, so a `stop` that runs during `start`'s await at connection.py:32 can clear the handle at connection.py:44-45, after which connection.py:33 sets `connected` true with no handle. `Connection.RunKeepsConsistent` covers only calls that do not overlap.
- Asynchronous queue semantics: a subscriber's queue is a sequence. `put` never blocks or fails, and taking items off the queue (done by the transport layer) is not modelled.
- The bus library itself: the `Telegram` type, address and payload string conversion, class names, `XKNX()` and its `start`/`stop`. These are parameters: a `Rendering` (a text or an exception), a payload's class name and truth value, a `StartOutcome`, and a flag saying whether stop raises.
- Time: `datetime.now().isoformat()` is the `now` parameter. The dashboard's locale time formatting is not modelled: a row keeps the record's timestamp.
- The singleton `__new__` plumbing of both Python classes: each is one explicitly constructed object.
- Logging throughout, and the dashboard's DOM: HTML templates, the total and rate displays, button styling, Chart.js configuration and rendering.
- The WebSocket connection and its 2-second reconnect loop, `fetch` and JSON parsing (a failed fetch or parse is `None`), and the `setInterval` timer (a tick is an explicit `Tick` call). `JSON.parse` raising inside the socket handler is not modelled.
- `state.startTime` and `state.telegrams` in app.js: the source initialises them but never uses them.
- knx-sentinel-2/app/main.py: application start-up wiring and a health endpoint on its own connection object. main.py serves neither `/api/history` nor `/ws/telegrams` and never constructs or wires a `BusMonitor`. main.py is not part of this model.
- Monitor.BusMonitor.ProcessTelegram: does not model an exception from `queue.put` part-way through the fan-out; `put` on an unbounded queue never raises.
- Counters: `msgCount` and `currentSecondCount` are JavaScript numbers, exact only up to 2^53; the model's counters are unbounded naturals.
