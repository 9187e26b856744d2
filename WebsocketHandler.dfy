/** The frame handler of src/WebsocketHandler.js: every frame first
    gets-or-creates its device in the shared map and subscribes to it, then
    goes to the handler its normalised type names. */
module WebsocketHandlers {
  import opened Values
  import opened MowerStore
  import opened Frames
  import opened DeviceMaps

  class WebsocketHandler {
    const devices: DeviceMap
    /** Everything this handler emits: forwarded device changes and the
        disconnection. */
    const emitter: HandlerChannel

    /** A handler over the shared map; the socket it opens is not modelled. */
    constructor (devices: DeviceMap)
      ensures this.devices == devices && fresh(emitter) && emitter.emitted == []
    {
      this.devices := devices;
      emitter := new HandlerChannel();
    }

    /** The socket's `close` event: the handler emits WEBSOCKET_EVENT_DISCONNECTED. */
    method OnClose()
      modifies emitter
      ensures emitter.emitted == old(emitter.emitted) + [Disconnected]
    {
      emitter.emitted := emitter.emitted + [Disconnected];
    }

    /** `_getOrCreateMower`: the stored device is reused, an unknown id gets a
        new device; a device without a change listener gets one that forwards
        into this handler's emitter. */
    method GetOrCreateMower(id: string) returns (m: Mower)
      requires ReadyAt(devices, id)
      modifies devices, DeviceAt(devices, id)`listeners
      ensures devices.Valid() && DeviceReady(m) && m.id == id
      ensures devices.items == old(devices.items)[id := m]
      ensures devices.keys == if id in old(devices.items) then old(devices.keys) else old(devices.keys) + [id]
      ensures id in old(devices.items) ==> m == old(devices.items[id])
      ensures id !in old(devices.items) ==> fresh(m) && m.published == []
      ensures m.View() == old(Addressed(devices, id))
      ensures m.listeners == if old(ListenersAt(devices, id)) == [] then [emitter] else old(ListenersAt(devices, id))
    {
      if id in devices.items {
        m := devices.items[id];
      } else {
        m := new Mower(id);
        EmptyConsistent();
        devices.Set(id, m);
      }
      if m.ListenerCount() < 1 {
        m.On(emitter);
      }
    }

    /** `_handleCommon`. */
    method HandleCommon(event: Frame, m: Mower, now: Time) returns (outcome: Outcome)
      requires m.Valid()
      modifies m`name, m`serial, m`modelType
      modifies m`batteryLevels, m`lastBatteryLevel, m`batteryStates, m`lastBatteryState
      modifies m`rfLinkLevels, m`lastRfLinkLevel, m`rfLinkStates, m`lastRfLinkState
      ensures outcome == if event.attributes.None? then Thrown else Handled
      ensures m.Valid()
      ensures m.View() == if event.attributes.None? then old(m.View()) else CommonView(old(m.View()), event.attributes.value, now)
    {
      if event.attributes.None? {
        return Thrown;
      }
      ApplyCommon(m, event.attributes.value, now);
      outcome := Handled;
    }

    /** `_handleMower`. */
    method HandleMower(event: Frame, m: Mower) returns (outcome: Outcome)
      requires m.Valid()
      modifies m`states, m`lastState, m`activities, m`lastActivity, m`errors, m`lastError
      modifies m`operatingHours, m`published, m.listeners
      ensures outcome == if event.attributes.None? then Thrown else Handled
      ensures m.Valid()
      ensures m.View() == if event.attributes.None? then old(m.View()) else MowerFrameView(old(m.View()), event.attributes.value)
      ensures var changes := if event.attributes.None? then [] else MowerFrameChanges(old(m.Store()), event.attributes.value);
        && m.published == old(m.published) + Gated(m.disableEmitter, changes)
        && forall l :: l in m.listeners ==>
             l.emitted == old(l.emitted) + Gated(m.disableEmitter, Deliveries(changes, Count(m.listeners, l)))
    {
      if event.attributes.None? {
        return Thrown;
      }
      ApplyMower(m, event.attributes.value);
      outcome := Handled;
    }

    /** The socket's `message` event: the addressed device is got or created
        and subscribed whatever the frame's type, then the frame is
        dispatched on its normalised type. The device ends up in the map with
        exactly one listener, its state is the frame's effect on what it was,
        and its listener receives each change the frame raised, once, in
        order. A device subscribed to another handler's emitter (one that
        was first seen before a reconnect) is not forwarded into this
        handler's emitter as well; no other device changes. */
    method OnMessage(event: Frame, now: Time) returns (outcome: Outcome, ghost m: Mower)
      requires ReadyAt(devices, event.id)
      modifies devices, DeviceAt(devices, event.id), ListenersAt(devices, event.id), emitter
      ensures devices.Valid() && DeviceReady(m)
      ensures outcome == OutcomeOf(event)
      ensures devices.items == old(devices.items)[event.id := m]
      ensures devices.keys == if event.id in old(devices.items) then old(devices.keys) else old(devices.keys) + [event.id]
      ensures event.id in old(devices.items) ==> m == old(devices.items[event.id])
      ensures event.id !in old(devices.items) ==> fresh(m)
      ensures m.View() == FrameView(old(Addressed(devices, event.id)), event, now)
      ensures m.listeners == if old(ListenersAt(devices, event.id)) == [] then [emitter] else old(ListenersAt(devices, event.id))
      ensures var l := m.listeners[0];
        l.emitted == old(l.emitted) + Deliveries(FrameChanges(old(Addressed(devices, event.id)), event), 1)
      ensures m.listeners[0] != emitter ==> emitter.emitted == old(emitter.emitted)
    {
      var mower := GetOrCreateMower(event.id);
      m := mower;
      outcome := Dispatch(event, mower, mower.listeners[0], now);
    }

    /** The `_handle${type}` lookup of the `message` event, on the device
        already got or created. Location and Device frames reach handlers
        that do nothing; an unknown type goes to the generic branch. */
    method Dispatch(event: Frame, m: Mower, ghost l: HandlerChannel, now: Time) returns (outcome: Outcome)
      requires DeviceReady(m) && m.listeners == [l]
      modifies m`name, m`serial, m`modelType, m`operatingHours
      modifies m`batteryLevels, m`lastBatteryLevel, m`batteryStates, m`lastBatteryState
      modifies m`rfLinkLevels, m`lastRfLinkLevel, m`rfLinkStates, m`lastRfLinkState
      modifies m`states, m`lastState, m`activities, m`lastActivity, m`errors, m`lastError
      modifies m`published, l
      ensures DeviceReady(m) && m.listeners == [l]
      ensures outcome == OutcomeOf(event)
      ensures m.View() == FrameView(old(m.View()), event, now)
      ensures l.emitted == old(l.emitted) + Deliveries(FrameChanges(old(m.View()), event), 1)
    {
      ghost var v := m.View();
      match Classify(event.kind) {
        case CommonFrame =>
          outcome := HandleCommon(event, m, now);
          assert FrameChanges(v, event) == [];
        case MowerFrame =>
          CountSingleton(l);
          outcome := HandleMower(event, m);
          assert m.listeners == [l];
        case LocationFrame =>
          outcome := Handled;
          assert FrameChanges(v, event) == [];
        case DeviceFrame =>
          outcome := Handled;
          assert FrameChanges(v, event) == [];
        case Unknown =>
          outcome := Generic;
          assert FrameChanges(v, event) == [];
      }
    }
  }
}
