# realtime-tracker, modelled in Dafny

A model of the decision logic of a small real-time location-sharing service:
a Go server (`main.go`) that validates location records sent over WebSockets,
remembers each user's last location and broadcasts every record to all
connected clients; and a browser page (`public/js/index.js`) that sends the
user's position, draws one map marker per participant, and reconnects when
the socket closes.

Everything is modelled as immutable data and pure transition functions that
return the new state together with a list of effects (notifications, map
recenters, tile swaps, reconnect timers, socket sends) instead of performing
them.

| file | module | models |
|---|---|---|
| options.dfy | `Options` | optional values |
| floats.dfy | `Floats` | doubles as finite / NaN / +Inf / -Inf, with IEEE comparisons |
| bytes.dfy | `Bytes` | bytes and ASCII-to-UTF-8 encoding (Go lengths count bytes) |
| text.dfy | `Text` | substring search, ASCII case-insensitive matching |
| validation.dfy | `Validation` | `validateLocationData`, `isValidCoordinate` |
| config.dfy | `Config` | `getEnv` and the host/port settings |
| broker.dfy | `Broker` | `ClientManager.run` (register, unregister, broadcast), the reader loop's validate/enqueue/drop step, and the whole server as an event processor |
| ui.dfy | `Ui` | the page's effects, base-map layers |
| presence.dfy | `Presence` | `updateMarker`, `updateUserCount`, `onmessage` |
| device.dfy | `Device` | `getDeviceType` |
| layers.dfy | `Layers` | `switchMapLayer` |
| connection.dfy | `Connection` | `connectWebSocket` handlers, the send gate of `startTracking`, the reconnect loop |

Things the proofs bring out about the code as written:

- Latitude is checked against the longitude range, so the server accepts a
  latitude of 120 degrees.
- The server's NaN and infinity tests are redundant: the two range
  comparisons already reject those values.
- The page reads the longitude as `data.lng || data.long`. A longitude of
  exactly 0 is falsy, so a record on the prime meridian without a `long`
  field parses to NaN and is silently dropped. The server only ever sends
  `lng`, so such users never appear on anyone's map.
- The page rejects only NaN coordinates; infinite ones are placed on the map.
- The popup title is "You" for the local user, but also for a remote user
  whose ID is literally "You".
- Every `onopen` calls `startTracking()`, reconnects included
  (public/js/index.js:181).
- `startTracking` overwrites `state.watchId` without clearing the previous
  watch (public/js/index.js:244). After k reconnects, k + 1 position watches
  are live and each one sends every sample. The model emits one
  `StartTracking` effect per open and does not count live watches.

## Model

| member | source | states |
|---|---|---|
| Validation.IsValidCoordinate | main.go:278-280 | The check holds exactly for finite values in [-180, 180]. |
| Validation.RangeComparisonsSuffice | main.go:279 | The two range comparisons alone decide validity; the NaN and infinity tests change nothing. |
| Validation.DefaultDeviceType | main.go:268-270 | The defaulted device type is never empty and keeps a non-empty one as it is. |
| Validation.ValidateLocationData | main.go:255-275 | The error returned is the one of the first failing check in the order ID empty, ID over 100 bytes, latitude, longitude, device type over 50 bytes. No error is returned iff no check fails. A rejected record is left untouched. An accepted record has only its device type defaulted and satisfies every bound. |
| Validation.ValidatePreservesFields | main.go:255-275 | The validator never changes the ID, the coordinates or the timestamp. |
| Validation.ValidateAcceptsExactly | main.go:255-275 | A record is accepted iff, with its device type defaulted, its ID has 1 to 100 bytes, both coordinates are valid and its device type has 1 to 50 bytes. |
| Validation.AcceptedIsFixedPoint | main.go:255-275 | An already valid record passes and comes back unchanged. |
| Validation.ValidateIdempotent | main.go:255-275 | Validating an accepted record again gives the same outcome. |
| Validation.EmptyDeviceTypeDefaulted | main.go:268-273 | An empty device type becomes "Unknown" and then passes the length check. |
| Validation.LatitudeUsesLongitudeRange | main.go:262-267 | A latitude of 120 is accepted, because latitude uses the [-180, 180] range. |
| Config.GetEnv | main.go:78-83 | The result is the environment value when it is set and non-empty, and the default otherwise. |
| Config.GetEnvNeverEmpty | main.go:78-83 | A non-empty default means the setting is never empty. |
| Config.LoadConfig | main.go:59-61 | Host and port are never empty. They default to "0.0.0.0" and "8080" and are overridden by non-empty environment values. |
| Broker.Register | main.go:289-294 | Registering adds the client and nothing else. A present client leaves the set unchanged. Afterwards the count equals the set size. |
| Broker.Unregister | main.go:296-303 | Unregistering removes only that client. An absent client leaves the manager unchanged. A consistent count stays consistent. |
| Broker.Broadcast | main.go:305-325 | The sender's last location becomes the record and every other entry stays as it was. Exactly the clients whose write failed are dropped; all others are kept and receive the record. The count equals the new set size. |
| Broker.BroadcastLoop | main.go:310-324 | The two loops (collect failed writes, then delete them) drop exactly the failed clients, store the record and recount. |
| Broker.ReceiveMessage | main.go:236-250 | An invalid record is skipped with its validation error and the queue is unchanged. A valid record is stamped and appended iff the queue holds fewer than 256 records; otherwise it is dropped and the queue is unchanged. The queue never grows past 256. |
| Broker.InitialServerInv | main.go:68-74 | The freshly built manager satisfies the server invariant. |
| Broker.StepPreservesInv | main.go:283-325 | Any single event keeps the server invariant. The invariant is: count equals the number of clients, at most 256 queued records, only accepted records queued, and only accepted records remembered, each under its own ID. |
| Broker.RunPreservesInv | main.go:283-325 | The server invariant holds after any sequence of events. |
| Broker.Step | main.go:287-325 | Register and unregister change only the manager. A received record changes only the queue, as the reader step decides. A dispatch on an empty queue does nothing. On a non-empty queue it pops exactly the oldest record and broadcasts it. |
| Broker.RunKeepsLocations | main.go:305-308 | Last-known locations are never forgotten: the set of tracked IDs only grows. |
| Text.Search | public/js/index.js:67-71 | The scan finds a pattern iff it occurs in the text, and it reports the leftmost occurrence. |
| Text.TestIgnoreCase | public/js/index.js:67-71 | A one-word case-insensitive regular expression test succeeds iff the word occurs, ignoring ASCII case. |
| Device.GetDeviceType | public/js/index.js:65-73 | Each class is chosen iff its test matches and no earlier test does, in the order Android, iPhone/iPad/iPod, Windows, Linux, Mac; otherwise the class is Unknown. |
| Device.GetDeviceTypeIsFirstMatch | public/js/index.js:65-73 | The classifier equals "first matching rule" over the ordered rule list. |
| Device.AndroidBeatsLinux | public/js/index.js:67-70 | A user agent containing both "Android" and "Linux", in either order, is classified as Android. |
| Device.Classify | public/js/index.js:65-73 | Evaluating the five searches in order yields the same class as the classifier. |
| Layers.SwitchMapLayer | public/js/index.js:119-132 | Choosing the current layer does nothing. Otherwise the chosen layer becomes current, its tiles are shown and a notice names it. |
| Layers.SwitchIdempotent | public/js/index.js:119-120 | Switching to the same layer twice does nothing the second time. |
| Presence.NewTracker | public/js/index.js:37-48 | The page starts with no markers, a user count of zero that matches them, and no recenter done. |
| Presence.Longitude | public/js/index.js:207 | Longitude comes from `lng` when it is truthy and from `long` otherwise. |
| Presence.PopupFor | public/js/index.js:229-235 | The popup title is "You" for the local ID and the ID otherwise; the detail is the device type. |
| Presence.JoinMessage | public/js/index.js:223 | The join notice is "User joined: " followed by a prefix of the ID of at most 10 characters. |
| Presence.UpdateMarker | public/js/index.js:205-236 | An unreadable record changes nothing and emits nothing. Otherwise the record's marker is placed at its coordinates. A new ID adds one marker and recounts. The user ID never changes. The zoom flag is set iff this is the local user's first marker. A recenter to zoom 15 happens only for the local user's first marker while not yet zoomed. A join notice is emitted iff the ID is new and not the local one. |
| Presence.OnMessage | public/js/index.js:184-191 | A message that does not parse changes nothing; a parsed one is handled as a record. |
| Presence.ZeroLongitudeDropped | public/js/index.js:207-209 | A numeric longitude of 0 with no `long` field makes the record change nothing. |
| Presence.NewIdCountsOnce | public/js/index.js:211-213 | With a consistent count, a new ID raises the user count by exactly one and keeps it equal to the number of markers. |
| Presence.KnownIdOnlyMoves | public/js/index.js:225-227 | A known ID moves only its own marker. The count, the zoom flag, the other markers and the effects stay untouched. |
| Presence.ReplayKeepsCount | public/js/index.js:211-213 | Over any sequence of records the user count stays equal to the number of markers. |
| Presence.ReplayOnlyGrows | public/js/index.js:205-236 | Markers are never removed, and once zoomed the page stays zoomed. |
| Presence.RecenterAtMostOnce | public/js/index.js:215-219 | Over any sequence of records the map recenters at most once, and never once already zoomed. |
| Presence.SelfFirstRecordRecenters | public/js/index.js:215-219 | The local user's first readable record recenters the map when it has not been zoomed, and sets the zoom flag. |
| Connection.ConnectWebSocket | public/js/index.js:171-175 | A new socket in the connecting state replaces the old one; nothing else changes. |
| Connection.OnOpen | public/js/index.js:177-182 | Every open sets the connected flag and starts tracking, and it schedules no reconnect. |
| Connection.OnError | public/js/index.js:193-195 | An error changes no state and emits no effect beyond the status text. |
| Connection.OnClose | public/js/index.js:197-202 | Every close clears the connected flag and schedules exactly one reconnect after 3000 ms. |
| Connection.OnPosition | public/js/index.js:244-256 | A sample is sent, as the user's ID, coordinates and device type, iff the socket is open; otherwise nothing is sent. |
| Connection.NewSessionInv | public/js/index.js:36-48 | The initial page state satisfies the connection invariant. |
| Connection.DeliverPreservesInv | public/js/index.js:177-202 | Every browser event keeps the invariant. The flag is true iff the socket is open, and exactly one reconnect is pending iff the socket is closed, never more. |
| Connection.Deliver | public/js/index.js:171-202 | Load opens a connecting socket when there is none. An open from connecting sets the flag and starts tracking. A close of a live socket clears the flag and leaves one more reconnect pending, emitting exactly one. A pending timer opens a new connecting socket. A position is sent iff the socket is open, and an error changes nothing. Every event the browser cannot deliver in the current state is a no-op. |
| Connection.RunSessionPreservesInv | public/js/index.js:171-202 | The connection invariant holds after any sequence of browser events. |
| Connection.SendIffConnected | public/js/index.js:253-255 | Under the invariant, a position sample is sent iff the page believes it is connected. |
| Connection.CloseSchedulesOneReconnect | public/js/index.js:197-202 | Closing a live socket emits exactly one reconnect, leaves exactly one pending and clears the flag. |
| Connection.EveryOpenStartsTracking | public/js/index.js:177-182 | Every open, reconnects included, notifies and starts tracking. |
| Connection.CloseThenTimerReconnects | public/js/index.js:197-202 | A close followed by its timer opens a new connecting socket with no reconnect left pending. |

## Left out

- HTTP server setup, `loggingMiddleware`, `handleHealth` and `handleStats`, the WebSocket upgrade, read deadlines, the pong handler and signal-driven shutdown (main.go:95-218): network and I/O plumbing.
- `getDurationEnv` and the three timeouts: they depend on `time.ParseDuration`, a library parser.
- Goroutines, the mutex and blocking channel semantics: the manager's loop is a sequential event processor, the broadcast channel a bounded queue, and no interleavings are modelled.
- The 30-second statistics ticker: it only logs.
- `time.Now()`: the reader loop's stamp is an abstract `Timestamp` parameter.
- JSON decoding and encoding on both sides, and the reader loop's exit on a read error: a decoded record is an input, the exit is the `Disconnect` event, and write failures are the `failed` set.
- IEEE doubles beyond finite / NaN / infinities: signed zero and rounding are not distinguished.
- Presence.ParseFloat: `parseFloat` of a string is abstract; the number read from its numeric prefix travels with the string.
- Presence.UpdateMarker: inbound IDs are strings, as the server always sends them; a non-string ID, whose `substring` call would throw after the marker was added, and special property names such as `__proto__` are not modelled.
- Presence.JoinMessage: the first 10 characters are counted as Unicode scalar values, not UTF-16 code units.
- Leaflet map and marker calls, DOM updates, the status badge, Tailwind classes, button styling, the notice's 3-second timeout, and clipboard copy: presentation; the map operations appear only as effects.
- `generateUserId` (`Math.random`) and `initializeUI`: the user ID and device label are parameters.
- `startTracking`'s unsupported-geolocation branch, the `watchPosition` registration and the geolocation error notice: browser geolocation API; starting the watch is the `StartTracking` effect.
- The `beforeunload` teardown and the socket's `Closing` state: page lifecycle. This server closes connections without a closing handshake. A peer or proxy that starts one would leave `isConnected` true while the send gate refuses. `Connection.Inv` and `Connection.SendIffConnected` do not cover that window.
- Tile-layer URLs, attributions and zoom limits: static presentation data; only the layer names are kept.
