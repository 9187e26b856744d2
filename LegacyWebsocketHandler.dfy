/** The earlier frame handler of the repository root, WebsocketHandler.js: it
    has no emitter of its own and subscribes to nothing, reports a closed
    socket through an optional callback, and only creates a device for a
    Common or Mower frame that carries attributes. */
module LegacyWebsocketHandlers {
  import opened Values
  import opened MowerStore
  import opened Frames
  import opened DeviceMaps

  /** The `onDisconnect` callback: the number of times it has been called. */
  class DisconnectCallback {
    var calls: nat

    constructor ()
      ensures calls == 0
    {
      calls := 0;
    }
  }

  /** The map is well formed and the device stored under `id`, if any, is
      consistent. */
  ghost predicate StoredAt(d: DeviceMap, id: string)
    reads d, DeviceAt(d, id)
  {
    d.Valid() && (id in d.items ==> d.items[id].Valid())
  }

  /** Whether a frame reaches a handler that gets or creates its device: a
      Common or Mower frame with attributes. */
  predicate Touches(f: Frame) {
    NeedsAttributes(Classify(f.kind)) && f.attributes.Some?
  }

  /** The disconnection callback's frame, if there is one. */
  function CallbackFrame(c: Option<DisconnectCallback>): set<DisconnectCallback> {
    if c.Some? then {c.value} else {}
  }

  class WebsocketHandler {
    const devices: DeviceMap
    /** `onDisconnect`, when it is a function. */
    const onDisconnect: Option<DisconnectCallback>

    /** A handler over the shared map; the socket it opens is not modelled. */
    constructor (devices: DeviceMap, onDisconnect: Option<DisconnectCallback>)
      ensures this.devices == devices && this.onDisconnect == onDisconnect
    {
      this.devices := devices;
      this.onDisconnect := onDisconnect;
    }

    /** The socket's `close` event: the callback, when there is one, is
        called once. */
    method OnClose()
      modifies CallbackFrame(onDisconnect)
      ensures onDisconnect.Some? ==> onDisconnect.value.calls == old(onDisconnect.value.calls) + 1
    {
      if onDisconnect.Some? {
        onDisconnect.value.calls := onDisconnect.value.calls + 1;
      }
    }

    /** `_getOrCreateMower`: the stored device is reused, an unknown id gets a
        new device; nothing subscribes to it. */
    method GetOrCreateMower(id: string) returns (m: Mower)
      requires StoredAt(devices, id)
      modifies devices
      ensures devices.Valid() && m.Valid() && m.id == id
      ensures devices.items == old(devices.items)[id := m]
      ensures devices.keys == if id in old(devices.items) then old(devices.keys) else old(devices.keys) + [id]
      ensures id in old(devices.items) ==> m == old(devices.items[id])
      ensures id !in old(devices.items) ==> fresh(m) && m.listeners == [] && m.published == [] && !m.disableEmitter
      ensures m.View() == old(Addressed(devices, id))
    {
      if id in devices.items {
        m := devices.items[id];
      } else {
        m := new Mower(id);
        EmptyConsistent();
        devices.Set(id, m);
      }
    }

    /** `_handleCommon`: a frame without attributes throws before the device
        is looked up, so the map is left as it was. */
    method HandleCommon(event: Frame, now: Time) returns (outcome: Outcome)
      requires StoredAt(devices, event.id)
      modifies devices, DeviceAt(devices, event.id)
      ensures outcome == if event.attributes.None? then Thrown else Handled
      ensures StoredAt(devices, event.id)
      ensures event.attributes.Some? ==> event.id in devices.items
      ensures devices.items ==
        if event.attributes.Some? then old(devices.items)[event.id := devices.items[event.id]] else old(devices.items)
      ensures devices.keys ==
        if event.attributes.Some? && event.id !in old(devices.items) then old(devices.keys) + [event.id] else old(devices.keys)
      ensures event.id in old(devices.items) ==> event.id in devices.items && devices.items[event.id] == old(devices.items[event.id])
      ensures event.id in old(devices.items) ==>
        && devices.items[event.id].listeners == old(devices.items[event.id].listeners)
        && devices.items[event.id].disableEmitter == old(devices.items[event.id].disableEmitter)
      ensures event.id in devices.items && event.id !in old(devices.items) ==>
        && fresh(devices.items[event.id])
        && devices.items[event.id].listeners == []
        && !devices.items[event.id].disableEmitter
      ensures Addressed(devices, event.id) ==
        if event.attributes.None? then old(Addressed(devices, event.id))
        else CommonView(old(Addressed(devices, event.id)), event.attributes.value, now)
    {
      if event.attributes.None? {
        return Thrown;
      }
      var mower := GetOrCreateMower(event.id);
      ghost var items := devices.items;
      ApplyCommon(mower, event.attributes.value, now);
      assert devices.items == items;
      outcome := Handled;
    }

    /** `_handleMower`: a frame without attributes throws before the device
        is looked up, so the map is left as it was. */
    method HandleMower(event: Frame) returns (outcome: Outcome)
      requires StoredAt(devices, event.id)
      modifies devices, DeviceAt(devices, event.id), ListenersAt(devices, event.id)
      ensures outcome == if event.attributes.None? then Thrown else Handled
      ensures StoredAt(devices, event.id)
      ensures event.attributes.Some? ==> event.id in devices.items
      ensures devices.items ==
        if event.attributes.Some? then old(devices.items)[event.id := devices.items[event.id]] else old(devices.items)
      ensures devices.keys ==
        if event.attributes.Some? && event.id !in old(devices.items) then old(devices.keys) + [event.id] else old(devices.keys)
      ensures event.id in old(devices.items) ==> event.id in devices.items && devices.items[event.id] == old(devices.items[event.id])
      ensures event.id in old(devices.items) ==>
        && devices.items[event.id].listeners == old(devices.items[event.id].listeners)
        && devices.items[event.id].disableEmitter == old(devices.items[event.id].disableEmitter)
      ensures event.id in devices.items && event.id !in old(devices.items) ==>
        && fresh(devices.items[event.id])
        && devices.items[event.id].listeners == []
        && !devices.items[event.id].disableEmitter
      ensures Addressed(devices, event.id) ==
        if event.attributes.None? then old(Addressed(devices, event.id))
        else MowerFrameView(old(Addressed(devices, event.id)), event.attributes.value)
    {
      if event.attributes.None? {
        return Thrown;
      }
      var mower := GetOrCreateMower(event.id);
      ghost var items := devices.items;
      ghost var listeners, gate := mower.listeners, mower.disableEmitter;
      assert event.id in old(devices.items) ==>
        listeners == old(devices.items[event.id].listeners) && gate == old(devices.items[event.id].disableEmitter);
      ApplyMower(mower, event.attributes.value);
      assert devices.items == items && devices.items[event.id] == mower;
      assert mower.listeners == listeners && mower.disableEmitter == gate;
      outcome := Handled;
    }

    /** The socket's `message` event: the frame goes to the handler its
        normalised type names, and only a Common or Mower frame with
        attributes adds a device. Whatever the frame, the addressed device
        ends up as the frame's effect on what it was. */
    method OnMessage(event: Frame, now: Time) returns (outcome: Outcome)
      requires StoredAt(devices, event.id)
      modifies devices, DeviceAt(devices, event.id), ListenersAt(devices, event.id)
      ensures StoredAt(devices, event.id)
      ensures outcome == OutcomeOf(event)
      ensures Addressed(devices, event.id) == FrameView(old(Addressed(devices, event.id)), event, now)
      ensures Touches(event) ==> event.id in devices.items
      ensures devices.items ==
        if Touches(event) then old(devices.items)[event.id := devices.items[event.id]] else old(devices.items)
      ensures devices.keys ==
        if Touches(event) && event.id !in old(devices.items) then old(devices.keys) + [event.id] else old(devices.keys)
      ensures event.id in old(devices.items) ==> event.id in devices.items && devices.items[event.id] == old(devices.items[event.id])
      ensures event.id in old(devices.items) ==>
        && devices.items[event.id].listeners == old(devices.items[event.id].listeners)
        && devices.items[event.id].disableEmitter == old(devices.items[event.id].disableEmitter)
      ensures event.id in devices.items && event.id !in old(devices.items) ==>
        && fresh(devices.items[event.id])
        && devices.items[event.id].listeners == []
        && !devices.items[event.id].disableEmitter
    {
      match Classify(event.kind) {
        case CommonFrame =>
          outcome := HandleCommon(event, now);
        case MowerFrame =>
          outcome := HandleMower(event);
        case LocationFrame =>
          outcome := Handled;
        case DeviceFrame =>
          outcome := Handled;
        case Unknown =>
          outcome := Generic;
      }
    }
  }
}
