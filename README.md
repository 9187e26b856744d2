# Gardena mower monitoring: device state engine

This project models the telemetry core of the Gardena mower monitor:

- **Observation store.** Each device (a `Mower`) has four latest-write attributes:
  name, serial, model type and operating hours. It also has seven timestamped
  series: state, activity, error, battery level, battery state, radio link level
  and radio link state.
- **Current values.** Each series caches a current value. That value is the one
  held at the greatest timestamp, which is not necessarily the last value inserted.
- **Change events.** State, activity and error emit a change event when their
  current value changes.
- **Persistence.** `serialize` and `fromJson` save and rebuild a device.
- **Frame handlers.** A handler gets or creates the addressed device in a shared
  device map. It subscribes to the device and folds the frame's attributes into it.
  The model covers both the current handler and the earlier one kept at the
  repository root.
- **Monitor.** The monitor owns the device map. It rebuilds the map from a saved
  list and produces that list. It launches handlers over the same map again after
  every disconnection, and turns each change into a broadcast message.

**Modules.** One module per source entity:

| module | file | models |
|---|---|---|
| `Values` | `Values.dfy` | JavaScript primitive values, timestamped entries, the event tags of `src/constants.js`, and a handler's emitter as a log of what it emitted |
| `Series` | `Series.dfy` | one series in insertion order, `_findLastByMapKey` and `_cleanupMap` |
| `MowerStore` | `Mower.dfy` | the `Mower` class, its serialized form and the `fromJson` replay |
| `Frames` | `Frames.dfy` | frames, case-insensitive dispatch, and the field mappings of `_handleCommon` and `_handleMower` |
| `DeviceMaps` | `Devices.dfy` | the shared `_devices` map, with its insertion order |
| `WebsocketHandlers` | `WebsocketHandler.dfy` | `src/WebsocketHandler.js` |
| `LegacyWebsocketHandlers` | `LegacyWebsocketHandler.dfy` | the root `WebsocketHandler.js` |
| `Monitors` | `Monitor.dfy` | the parts of `src/Monitor.js` that handle state |

**Representation.**

- **Objects.** Objects that the source updates in place are classes: `Mower`,
  `DeviceMap`, the two `WebsocketHandler`s and `Monitor`. Each class method
  states its new state through a pure function (`View()`, `Store()`) of the
  old state. The properties are lemmas about those functions.
- **Series.** A series is a sequence of `(timestamp, value)` entries in insertion
  order. Its JavaScript `Map` is keyed by `Date` objects, compared by identity,
  and every caller passes a fresh `Date`. So an insertion always appends, even
  when two entries share an instant.
- **Timestamps.** A timestamp is the integer `valueOf()` of its `Date`.
- **Listeners.** A device's change listener is the forwarding closure that
  `_getOrCreateMower` installs. It is modelled by a reference to that handler's
  emitter, which keeps the sequence of what it has emitted.
- **Published changes.** A ghost log `published` records every change that passes
  the `_disableEmitter` gate.

## Model

| member | source | states |
|---|---|---|
| Series.FindLastByMapKey | src/Mower.js:447-460 | `_findLastByMapKey`: an empty series has the current value `null`. For a non-empty one, `FindLastIsNewest` states which entry supplies the value. |
| Series.NewestIndexIsNewest | src/Mower.js:447-460 | The index the descending sort puts first holds a maximal timestamp, and no later entry shares that timestamp. |
| Series.NewestIsUnique | src/Mower.js:447-460 | At most one entry is newest in that sense. |
| Series.FindLastIsNewest | src/Mower.js:447-460 | The current value of a series is the value of its newest entry. The value is `null` for an empty series, and also when the newest entry holds `null`. |
| Series.FindLastAfterAppend | src/Mower.js:313-316 | After `set`, an entry at or after the greatest timestamp becomes the current value. An older entry leaves the current value unchanged. |
| Series.FindLastOrderIndependent | src/Mower.js:447-460 | With distinct timestamps, the current value does not depend on insertion order: two series with the same entries in any order give the same value. |
| Series.OldestIndexIsOldest | src/Mower.js:480-483 | The entry the model evicts first has a minimal timestamp. The source deletes the excess in its descending sort order, newest of the excess first. Only the surviving entries are the same. Among equal-time entries, the model alone picks which one is evicted. The path is dead while `LIST_ITEM_LIMIT` is `Infinity`. |
| Series.Evict | src/Mower.js:480-484 | The oldest entry is deleted, `n` times over: deleting `n` entries leaves `size - n` of them. |
| Series.EvictPartition | src/Mower.js:480-484 | The deleted entries and the kept entries together are exactly the original entries, as a multiset. |
| Series.EvictKeepsNewest | src/Mower.js:480-484 | No deleted entry is more recent than any kept entry, so the kept entries are the `limit` newest. |
| Series.EvictKeepsCurrent | src/Mower.js:470-485 | Cleanup that keeps at least one entry never changes the current value. |
| Series.CleanupMap | src/Mower.js:470-485 | At most `limit` entries (including the default `Infinity`): no change. Otherwise exactly `limit` entries remain, those left after the `size - limit` oldest are deleted one at a time. |
| MowerStore.WithEntryCurrent | src/Mower.js:313-316 | Recording an entry appends it to its own series and recomputes that series' current value. It keeps every cache consistent and leaves the other six series and caches alone. |
| MowerStore.OlderEntryIsSilent | src/Mower.js:313-321 | An entry older than the newest one is kept in the history, but leaves the current value as it was and raises no event. |
| MowerStore.NewerEntryBecomesCurrent | src/Mower.js:313-321 | An entry at or after the newest timestamp becomes the current value. State, activity and error raise one event carrying it exactly when it differs from the previous value. Re-inserting the current value raises nothing. |
| MowerStore.ChangeOnExactly | src/Mower.js:313-358 | Each insertion raises at most one event, and only in a notifying series whose current value changed. The event carries the kind and the new current value. |
| MowerStore.HistoriesDetermineStore | src/Mower.js:403-425 | The seven histories determine the cached values: the serialized `last*` fields are redundant. |
| MowerStore.ReplayAllConsistent | src/Mower.js:60-101 | Replaying persisted entries keeps every cached value consistent. |
| MowerStore.ReplayAllHistory | src/Mower.js:60-101 | After a replay, each series is its previous history followed by every entry replayed into it, in order. |
| MowerStore.ReplayOrderEntries | src/Mower.js:60-101 | The seven `forEach` loops replay each persisted array into its own series, exactly once. |
| MowerStore.RestoreStoreHistories | src/Mower.js:52-106 | `fromJson` rebuilds exactly the persisted histories, and the caches are recomputed from them. |
| MowerStore.RestoreSerialize | src/Mower.js:403-425 | Round trip: `fromJson(serialize(m))` has `m`'s id, attributes, histories and current values. |
| MowerStore.DeliveriesAppend | src/Mower.js:432-437 | Emitting two batches of changes delivers the first batch, then the second. |
| MowerStore.DeliveriesOnce | src/Mower.js:432-437 | A listener registered once receives every change exactly once, in order. |
| MowerStore.Mower.constructor | src/Mower.js:22-46 | A new device has operating hours 0. Its other attributes and every current value are `null`, its series are empty, it has no listener and its emitter is enabled. |
| MowerStore.Mower.FromJson | src/Mower.js:52-106 | Builds a fresh device in the state `Restore` gives for the record. Nothing is published, there is no listener, and the emitter is enabled again at the end. |
| MowerStore.Mower.ReplayPersisted | src/Mower.js:54-103 | With the emitter disabled for the whole bulk load, the series become those of the record and nothing is published. The gate is open again afterwards. |
| MowerStore.Mower.ReplayAllSeries | src/Mower.js:60-101 | The seven `forEach` loops in order: the store becomes the replay of every pair, and nothing is published. |
| MowerStore.Mower.Replay | src/Mower.js:60-65 | One `forEach`: every entry of a persisted array goes, in order, through its series' `add*`. Nothing is published while the gate is closed. |
| MowerStore.Mower.Add | src/Mower.js:313-398 | The `add*` method of a series: the store gains the entry. Each listener receives the series' change event once per registration, unless the gate is closed. |
| MowerStore.Mower.SetName | src/Mower.js:291-293 | Overwrites the name and nothing else. No history is kept and no event is emitted. |
| MowerStore.Mower.SetSerial | src/Mower.js:298-300 | Overwrites the serial and nothing else. |
| MowerStore.Mower.SetModelType | src/Mower.js:305-307 | Overwrites the model type and nothing else. |
| MowerStore.Mower.SetOperatingHours | src/Mower.js:284-286 | Overwrites the operating hours and nothing else. |
| MowerStore.Mower.ListenerCount | src/WebsocketHandler.js:143 | `listenerCount(MOWER_EVENT_CHANGE)` is zero exactly when the device has no change listener. |
| MowerStore.Mower.Serialize | src/Mower.js:403-425 | The record carries the device's id, and `fromJson` rebuilds the device's state from it: attributes, histories and current values. |
| MowerStore.Mower.On | src/WebsocketHandler.js:144-147 | Registering a listener appends it to the device's listeners. |
| MowerStore.Mower.Emit | src/Mower.js:432-437 | A closed gate delivers nothing and answers false. Otherwise each listener receives the change once per registration, and the answer is whether there was a listener. |
| MowerStore.Mower.AddState | src/Mower.js:313-324 | The entry is recorded and the current state recomputed. The listeners receive `(MOWER_STATE, new state)` exactly when it differs from the previous one. Cleanup keeps everything. |
| MowerStore.Mower.AddActivity | src/Mower.js:330-341 | As `AddState`, for activity and `MOWER_ACTIVITY`. |
| MowerStore.Mower.AddError | src/Mower.js:347-358 | As `AddState`, for error and `MOWER_ERROR`. |
| MowerStore.Mower.AddBatteryLevel | src/Mower.js:364-368 | Only the battery level series and its cached value change. The method cannot emit, since neither the listeners nor `published` are in its frame. |
| MowerStore.Mower.AddBatteryState | src/Mower.js:374-378 | Only the battery state series and its cached value change. No emission. |
| MowerStore.Mower.AddRfLinkLevel | src/Mower.js:384-388 | Only the radio link level series and its cached value change. No emission. |
| MowerStore.Mower.AddRfLinkState | src/Mower.js:394-398 | Only the radio link state series and its cached value change. No emission. |
| Frames.Normalize | src/WebsocketHandler.js:36 | The normalised type has the length of the raw type and never starts with a lower-case letter. |
| Frames.Classify | src/WebsocketHandler.js:40-46 | A frame that reaches a handler has a normalised type equal to that handler's name. `ClassifyIff` states the converse. |
| Frames.NormalizeLower | src/WebsocketHandler.js:36 | Normalisation sees a type only through its lower-case spelling, and lower-casing undoes it. |
| Frames.NormalizeIdempotent | src/WebsocketHandler.js:36 | Normalising twice is normalising once. |
| Frames.HandlerNames | src/WebsocketHandler.js:40-42 | Each handler's lower-case name normalises to its `_handle<Type>` suffix, and back. |
| Frames.ClassifyIff | src/WebsocketHandler.js:36-46 | A frame reaches the Location, Device, Common or Mower handler exactly when its type, lower-cased, is that handler's name. Any other type reaches the generic branch. |
| Frames.ClassifyIgnoresCase | src/WebsocketHandler.js:36-46 | Two types that agree ignoring case are dispatched alike ("COMMON", "common", "Common"). |
| Frames.RfLinkTime | src/WebsocketHandler.js:93-95 | A radio link state entry is recorded at its own timestamp when the raw timestamp is truthy, and at the time of arrival otherwise. |
| Frames.CommonStoreEffect | src/WebsocketHandler.js:72-97 | A Common frame appends what it carries to the battery level, battery state, radio link level and radio link state series. It leaves state, activity and error untouched. |
| Frames.MowerFrameStoreEffect | src/WebsocketHandler.js:105-122 | A Mower frame appends what it carries to the state, activity and error series. It leaves the battery and radio link series untouched. |
| Frames.MowerFrameChangesExactly | src/WebsocketHandler.js:105-122 | A Mower frame raises one event for each of state, activity and error whose value it changed, in that order. Each event carries the new value, and nothing else is raised. |
| Frames.ApplyCommon | src/WebsocketHandler.js:63-97 | Only present fields are applied. Name, serial and model type overwrite. The readings are recorded, with "now" for a falsy radio link timestamp. |
| Frames.RecordReadings | src/WebsocketHandler.js:72-97 | The four `add*` calls, in source order, each only when its attribute is present. |
| Frames.ApplyMower | src/WebsocketHandler.js:105-125 | State, activity and error are recorded in that order and a present operating-hours value overwrites. Each listener receives the frame's events in that order. |
| Frames.RecordStatus | src/WebsocketHandler.js:105-122 | The three `add*` calls in order. The published events are the concatenation of the three batches. |
| Frames.RecordNotifying | src/WebsocketHandler.js:105-122 | One `add*` call of `_handleMower`, made only when its attribute is present. |
| Frames.FrameEffect | src/WebsocketHandler.js:40-126 | Any frame leaves its device consistent. A throwing frame, a Location, Device or unknown frame changes nothing and raises nothing. A Common frame raises nothing and never touches state, activity, error or operating hours. A Mower frame raises one event per changed notifying series and touches nothing else. |
| DeviceMaps.DeviceMap.constructor | src/Monitor.js:33 | `new Map([])` is empty. |
| DeviceMaps.DeviceMap.Set | src/WebsocketHandler.js:140 | `set`: a new id goes last in iteration order. A known id keeps its place and has its device replaced. |
| DeviceMaps.DeviceMap.Values | src/Monitor.js:90 | `values()` has one device per id, in iteration order, and each device is the one stored under its id. |
| DeviceMaps.ValuesExactlyOnce | src/Monitor.js:90 | `values()` yields every device exactly once. |
| WebsocketHandlers.WebsocketHandler.constructor | src/WebsocketHandler.js:19-22 | The handler works on the map it is given, with a fresh, empty emitter. |
| WebsocketHandlers.WebsocketHandler.OnClose | src/WebsocketHandler.js:29-32 | A closed socket emits `Disconnected`. |
| WebsocketHandlers.WebsocketHandler.GetOrCreateMower | src/WebsocketHandler.js:133-151 | Known id: the stored device is reused. Unknown id: a fresh `new Mower(id)` is added last. A listener forwarding to this handler is added only when the device has none, so no device gets a second one. Nothing else in the map changes. |
| WebsocketHandlers.WebsocketHandler.HandleCommon | src/WebsocketHandler.js:58-98 | Missing attributes throw, leaving the device as it was. Otherwise the Common field mapping is applied. |
| WebsocketHandlers.WebsocketHandler.HandleMower | src/WebsocketHandler.js:100-126 | Missing attributes throw and raise nothing. Otherwise the Mower mapping is applied and its events are delivered. |
| WebsocketHandlers.WebsocketHandler.OnMessage | src/WebsocketHandler.js:34-47 | For every frame, even one that throws or is ignored: the map then holds `event.id` (reused or fresh, appended only when new). The device keeps exactly one listener and ends in the frame's effect on its old state. The listener receives each change once, in order. When that listener is another handler's emitter, as after a reconnect, this handler's emitter receives nothing. No other entry changes. |
| WebsocketHandlers.WebsocketHandler.Dispatch | src/WebsocketHandler.js:40-46 | The `_handle${type}` lookup: the outcome (handled, generic or thrown) and the device's new state follow the normalised type. The single listener receives the frame's changes re-emitted unchanged. |
| LegacyWebsocketHandlers.WebsocketHandler.constructor | WebsocketHandler.js:12-16 | The handler works on the given map and keeps the optional disconnection callback. |
| LegacyWebsocketHandlers.WebsocketHandler.OnClose | WebsocketHandler.js:22-27 | On close, the callback is called once when there is one, and nothing happens otherwise. |
| LegacyWebsocketHandlers.WebsocketHandler.GetOrCreateMower | WebsocketHandler.js:130-140 | Known id: the stored device is reused. Unknown id: a fresh device with no listener and an open gate is added last. At most one entry is added. |
| LegacyWebsocketHandlers.WebsocketHandler.HandleCommon | WebsocketHandler.js:51-93 | Missing attributes throw before any lookup, so the map is unchanged. Otherwise the device is got or created and the Common field mapping is applied. A new device is fresh, with no listener and an open gate. A stored device keeps its listeners and its gate. |
| LegacyWebsocketHandlers.WebsocketHandler.HandleMower | WebsocketHandler.js:95-123 | Missing attributes throw before any lookup, so the map is unchanged. Otherwise the device is got or created and the Mower field mapping is applied. A new device is fresh, with no listener and an open gate. A stored device keeps its listeners and its gate. |
| LegacyWebsocketHandlers.WebsocketHandler.OnMessage | WebsocketHandler.js:29-40 | Only a Common or Mower frame with attributes can add an entry. Location, Device, unknown and throwing frames leave the map exactly as it was. The addressed device ends in the frame's effect on its old state. A new device is fresh, with no listener and an open gate. A stored device keeps its listeners and its gate. |
| Monitors.Notification | src/Monitor.js:136-147 | A message exists exactly for MOWER_STATE, MOWER_ACTIVITY and MOWER_ERROR, and it ends with the value's text. |
| Values.ValueText | src/Monitor.js:139-143 | The text of `${eventData}`: a number's text is never empty and starts with `-` exactly when the number is negative. |
| Monitors.ChangesAreAnnounced | src/Monitor.js:136-147 | Every kind of change a device raises (state, activity, error) gets a message. |
| Monitors.NotificationNamesKind | src/Monitor.js:136-147 | The three prefixes are distinct: equal messages come from the same kind and the same value text. |
| Monitors.LastRecord | src/Monitor.js:77-87 | The record loaded for an id, when there is one, carries that id and comes from the list. |
| Monitors.LastRecordFound | src/Monitor.js:77-87 | An id gets a record exactly when the list has a record with that id. |
| Monitors.LastRecordWins | src/Monitor.js:80-85 | A later record with a duplicate id replaces an earlier one: the record kept is the last with its id. |
| Monitors.LoadKeys | src/Monitor.js:80-85 | Loading keeps the map's existing ids as a prefix of the iteration order. |
| Monitors.LoadKeysIds | src/Monitor.js:80-85 | After loading, the ids are those of the map and of the list, without repetition. |
| Monitors.LoadedStep | src/Monitor.js:80-85 | Setting one more record keeps what was loaded so far under every other id, and puts the device built from the record under its own id. |
| Monitors.Records | src/Monitor.js:89-92 | The saved list has one record per id. |
| Monitors.RecordIds | src/Monitor.js:89-92 | Each saved record carries the id it is stored under. |
| Monitors.RecordsLoadKeys | src/Monitor.js:77-95 | Loading a saved list restores the saved iteration order. |
| Monitors.RecordsLoadDevices | src/Monitor.js:77-95 | Loading a saved list gives every id the record of its own device. |
| Monitors.Monitor.constructor | src/Monitor.js:26-43 | A monitor starts with an empty device map, no handler and no broadcast. |
| Monitors.Monitor.Start | src/Monitor.js:50-72 | The saved list, when there is one, is loaded before any loop is launched. Every launched handler shares the loaded map. |
| Monitors.Monitor.OnMowerEvent | src/Monitor.js:136-147 | A handled kind broadcasts its message once. Any other kind broadcasts nothing. |
| Monitors.Monitor.LaunchWebSocketLoop | src/Monitor.js:116-127 | A new handler over the same `_devices` map is launched, with a fresh emitter. The devices are not touched. |
| Monitors.Monitor.OnHandlerEvent | src/Monitor.js:124-127 | A forwarded change is announced. A disconnection launches one more handler over the same map and broadcasts nothing. The model assumes the endpoint request succeeds. |
| Monitors.Monitor.LoadStateFromFile | src/Monitor.js:77-87 | The ids become those of the map and the list, in `Map` order. Each listed id holds a fresh device restored from its last record, silently and without listeners. Every other device is unchanged. |
| Monitors.Monitor.LoadRecord | src/Monitor.js:81-84 | `set(id, fromJson(record))`: a fresh restored device is stored under its id. No other entry changes, and the devices built by earlier steps stay as they were. |
| Monitors.Monitor.PersistStateToFile | src/Monitor.js:89-95 | One record per device, in iteration order, each carrying its device's id. |
| Monitors.PersistLoadRoundTrip | src/Monitor.js:77-95 | Saving the map and loading the list into an empty map gives back the same ids in the same order. Each id holds a device in the state it was saved in. |

## Left out

- Floating point and NaN are not modelled. `Value` covers `null`, strings and integers.
- JSON parsing and `JSON.stringify` are not modelled. A frame is a record of optional fields, and a saved device is a record with the fields of `serialize()`.
- `parseInt` and `new Date(...)` are not modelled. A timestamp arrives as the integer value of its `Date`, and the time of arrival is a parameter (`now`). The battery level, radio link level and operating-hours readings are recorded as the frame carries them: a string or `null` reading is recorded unparsed, where the source's `parseInt` (src/WebsocketHandler.js:74,86,124, src/Mower.js:80,92 and the root WebsocketHandler.js:69,81,121) would give a number or `NaN`.
- Series.FindLastByMapKey: for entries with equal timestamps, the model takes the one inserted last. The source's comparator (src/Mower.js:452-455) answers -1 for two distinct `Date`s of the same instant, and `sort` with such a comparator is implementation-defined. `FindLastOrderIndependent` requires distinct timestamps. The following members state the model's choice for an entry whose timestamp equals the newest one: it becomes the current value. The source does not promise this. The members are `FindLastAfterAppend` and `NewerEntryBecomesCurrent`, and through them the event contracts of `AddState`, `AddActivity` and `AddError`, `ChangeOnExactly`, `MowerFrameChangesExactly` and `FrameEffect`.
- Case mapping covers ASCII letters only. Unicode case mapping of `toUpperCase`/`toLowerCase` is not modelled.
- Sockets are not modelled: `WebSocket` construction, the `open` event and `debug` logging are left out. The `close` event is kept (`OnClose`).
- The text of the error thrown for a frame without attributes is not modelled. The model records only that the handler threw (`Thrown`).
- The `mowerEventListener` argument of the handler constructor is not modelled: the handler never uses it.
- OAuth, HTTP, the saved-file checks and the autosave timer are not modelled: `OauthAdapter`, `GardenaAdapter`, `fs.existsSync`, `readFileSync`, `writeFileSync` and `setInterval`. The saved list and the number of locations are parameters of `Start`.
- Promise scheduling is not modelled: the loops launch in sequence.
- Monitors.Monitor.OnHandlerEvent: a disconnection always launches a new handler. In the source the relaunch first awaits `getWebsocket` (src/Monitor.js:117), and a failed endpoint request ends that location's loop. Failed requests are not modelled.
- src/Notifier.js is not part of this model. A broadcast is recorded as its message in `Monitor.broadcasts`.
- The repository root's Mower.js is not part of this model. The root handler drives the `Mower` of src/Mower.js.
- LegacyWebsocketHandlers.WebsocketHandler.HandleMower: does not state the change events the device emits. Its devices come from the root Mower.js and nothing subscribes to them, so the device's state is all it states.
- Monitors.Monitor.Start: does not repeat that the loaded devices are restored from their records. `LoadStateFromFile` states that about the map that `Start` then shares.
- WebsocketHandlers.WebsocketHandler.OnMessage: requires that the addressed device is consistent, has at most one listener and has its emitter enabled. Every device the handler or `fromJson` makes is left that way, so this is an invariant of the model, not something the source checks.
- LegacyWebsocketHandlers.WebsocketHandler.OnMessage: requires that the addressed device is consistent. This is an invariant of the model in the same way.

## Notes on behaviour

- **A reconnect keeps the old subscription.** After a reconnect, the devices already in the map keep the listener of the handler that first saw them. `_getOrCreateMower` subscribes only a device without one (`GetOrCreateMower`). So their changes still reach the monitor through the first handler's emitter, which the monitor still listens to.
- **Missing attributes in the current handler.** A Common or Mower frame without attributes throws only after the current handler has created and subscribed its device (`OnMessage`). The root handler throws before any lookup.
