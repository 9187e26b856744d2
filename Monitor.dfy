/** The session glue of src/Monitor.js: the device map it owns, the fold that
    rebuilds it from a saved list, the list it saves, the handlers it
    launches over the same map, and the text it broadcasts for each change. */
module Monitors {
  import opened Values
  import opened MowerStore
  import opened DeviceMaps
  import opened WebsocketHandlers

  const STATE_PREFIX: string := "Nouvel état : "
  const ACTIVITY_PREFIX: string := "Nouvelle activité : "
  const ERROR_PREFIX: string := "Nouvelle erreur : "

  /** The kinds `_onMowerEvent` has a case for. */
  predicate Announced(kind: string) {
    kind == MOWER_STATE || kind == MOWER_ACTIVITY || kind == MOWER_ERROR
  }

  /** The fixed part of the message for an announced kind. */
  function Prefix(kind: string): string
    requires Announced(kind)
  {
    if kind == MOWER_STATE then STATE_PREFIX
    else if kind == MOWER_ACTIVITY then ACTIVITY_PREFIX
    else ERROR_PREFIX
  }

  /** `_onMowerEvent`: the message broadcast for a change of `kind` to
      `value`, or none for a kind it does not handle. */
  function Notification(kind: string, value: Value): (r: Option<string>)
    ensures r.Some? <==> Announced(kind)
    ensures r.Some? ==> |r.value| > |ValueText(value)| && r.value[|r.value| - |ValueText(value)|..] == ValueText(value)
  {
    if Announced(kind) then Some(Prefix(kind) + ValueText(value)) else None
  }

  /** Every change a device can raise is broadcast. */
  lemma ChangesAreAnnounced(s: SeriesName, value: Value)
    requires s.ChangeKind().Some?
    ensures Notification(s.ChangeKind().value, value).Some?
  {
  }

  /** The message names its kind: two broadcasts that are equal come from
      the same kind and the same value text. */
  lemma NotificationNamesKind(k1: string, v1: Value, k2: string, v2: Value)
    requires Notification(k1, v1).Some? && Notification(k1, v1) == Notification(k2, v2)
    ensures k1 == k2 && ValueText(v1) == ValueText(v2)
  {
    var t := Notification(k1, v1).value;
    var p1, p2 := Prefix(k1), Prefix(k2);
    assert t == p1 + ValueText(v1) && t == p2 + ValueText(v2);
    assert t[6] == p1[6] == p2[6];
    assert t[9] == p1[9] == p2[9];
    assert ValueText(v1) == t[|p1|..] == ValueText(v2);
  }

  /** The record of `list` that a device id ends up with when the list is
      loaded: the last one with that id, since a later `set` replaces an
      earlier one. */
  function LastRecord(list: seq<SerializedMower>, id: string): (r: Option<SerializedMower>)
    ensures r.Some? ==> r.value.id == id && r.value in list
  {
    if list == [] then None
    else if list[|list| - 1].id == id then Some(list[|list| - 1])
    else LastRecord(list[..|list| - 1], id)
  }

  /** An id gets a record exactly when the list has a record with that id. */
  lemma {:induction false} LastRecordFound(list: seq<SerializedMower>, id: string)
    ensures LastRecord(list, id).Some? <==> exists i :: 0 <= i < |list| && list[i].id == id
  {
    if list != [] && list[|list| - 1].id != id {
      var p := list[..|list| - 1];
      LastRecordFound(p, id);
      if exists i :: 0 <= i < |list| && list[i].id == id {
        var i :| 0 <= i < |list| && list[i].id == id;
        assert p[i].id == id;
      }
    }
  }

  /** A record is the one loaded for its id exactly when no later record has
      the same id. */
  lemma {:induction false} LastRecordWins(list: seq<SerializedMower>, i: nat)
    requires i < |list|
    requires forall j :: i < j < |list| ==> list[j].id != list[i].id
    ensures LastRecord(list, list[i].id) == Some(list[i])
    decreases |list|
  {
    if i < |list| - 1 {
      var p := list[..|list| - 1];
      LastRecordWins(p, i);
    }
  }

  /** Loading one more record changes only the record of its own id. */
  lemma LastRecordStep(list: seq<SerializedMower>, i: nat, k: string)
    requires i < |list|
    ensures LastRecord(list[..i + 1], k) == if k == list[i].id then Some(list[i]) else LastRecord(list[..i], k)
  {
    assert list[..i + 1][..i] == list[..i];
  }

  /** The iteration order of the map after the list is loaded: an id the map
      did not have goes last, a known id keeps its place. */
  function LoadKeys(keys: seq<string>, list: seq<SerializedMower>): (r: seq<string>)
    ensures |keys| <= |r| && r[..|keys|] == keys
  {
    if list == [] then keys
    else
      var k := LoadKeys(keys, list[..|list| - 1]);
      var id := list[|list| - 1].id;
      if id in k then k else k + [id]
  }

  /** Loading lists each id of the map and of the list once: the ids are
      those of the map followed by the new ones, without repetition when the
      map had none. */
  lemma {:induction false} LoadKeysIds(keys: seq<string>, list: seq<SerializedMower>)
    ensures forall k :: k in LoadKeys(keys, list) <==> k in keys || exists i :: 0 <= i < |list| && list[i].id == k
    ensures Distinct(keys) ==> Distinct(LoadKeys(keys, list))
  {
    if list != [] {
      var p := list[..|list| - 1];
      LoadKeysIds(keys, p);
      forall k | k in LoadKeys(keys, list) ensures k in keys || exists i :: 0 <= i < |list| && list[i].id == k {
        if k !in keys && k != list[|list| - 1].id {
          var i :| 0 <= i < |p| && p[i].id == k;
          assert list[i].id == k;
        }
      }
      forall k | k !in keys && (exists i :: 0 <= i < |list| && list[i].id == k) ensures k in LoadKeys(keys, list) {
        var i :| 0 <= i < |list| && list[i].id == k;
        if i < |p| {
          assert p[i].id == k;
        }
      }
    }
  }

  /** Loading one more record puts its id last unless it is already there. */
  lemma LoadKeysStep(keys: seq<string>, list: seq<SerializedMower>, i: nat)
    requires i < |list|
    ensures LoadKeys(keys, list[..i + 1]) ==
      var k := LoadKeys(keys, list[..i]); if list[i].id in k then k else k + [list[i].id]
  {
    assert list[..i + 1][..i] == list[..i];
  }

  predicate Distinct(s: seq<string>) {
    forall i, j :: 0 <= i < j < |s| ==> s[i] != s[j]
  }

  /** A device as `fromJson` leaves it: consistent, with the state of its
      record, nothing published, no listener and its emitter enabled. */
  ghost predicate Restored(m: Mower, j: SerializedMower)
    reads m
  {
    m.Valid() && m.View() == Restore(j) && m.listeners == [] && m.published == [] && !m.disableEmitter
  }

  /** What loading has left under `k`: the device built, during the load,
      from the record loaded for `k`, or else the device `k` had at the
      start. `made` maps each device built so far to its record. */
  predicate LoadedAt(m: Mower, start: map<string, Mower>, made: map<Mower, SerializedMower>,
                     record: Option<SerializedMower>, k: string)
  {
    match record
    case Some(j) => m in made && made[m] == j
    case None => k in start && m == start[k]
  }

  /** The map after loading `prefix` into a map that held `start`. */
  ghost predicate LoadedUpTo(d: DeviceMap, start: map<string, Mower>, made: map<Mower, SerializedMower>,
                             prefix: seq<SerializedMower>)
    reads d
  {
    && d.Valid()
    && (forall k :: k in d.items <==> k in start || LastRecord(prefix, k).Some?)
    && (forall k :: k in d.items ==> LoadedAt(d.items[k], start, made, LastRecord(prefix, k), k))
  }

  /** Loading the record at `i` into `before` keeps what was loaded so far
      under the other ids and puts the device built from it under its own. */
  lemma LoadedStep(items: map<string, Mower>, before: map<string, Mower>, start: map<string, Mower>,
                   m: Mower, made: map<Mower, SerializedMower>, list: seq<SerializedMower>, i: nat)
    requires i < |list| && items == before[list[i].id := m] && m !in made
    requires forall k :: k in before <==> k in start || LastRecord(list[..i], k).Some?
    requires forall k :: k in before ==> LoadedAt(before[k], start, made, LastRecord(list[..i], k), k)
    ensures forall k :: k in items <==> k in start || LastRecord(list[..i + 1], k).Some?
    ensures forall k :: k in items ==> LoadedAt(items[k], start, made[m := list[i]], LastRecord(list[..i + 1], k), k)
  {
    forall k ensures (k in items <==> k in start || LastRecord(list[..i + 1], k).Some?)
      && (k in items ==> LoadedAt(items[k], start, made[m := list[i]], LastRecord(list[..i + 1], k), k))
    {
      LastRecordStep(list, i, k);
    }
  }

  /** Every device of the map is consistent. */
  ghost predicate AllValid(d: DeviceMap)
    reads d, d.items.Values
  {
    d.Valid() && forall k :: k in d.items ==> d.items[k].Valid()
  }

  /** The saved list of a map whose ids are `keys`: the devices in
      iteration order, each serialized. */
  function Records(keys: seq<string>, views: map<string, MowerView>): (r: seq<SerializedMower>)
    requires forall k :: k in keys ==> k in views
    ensures |r| == |keys|
  {
    seq(|keys|, i requires 0 <= i < |keys| => SerializeView(views[keys[i]]))
  }

  /** Each saved record carries the id it is stored under. */
  lemma RecordIds(keys: seq<string>, views: map<string, MowerView>)
    requires forall k :: k in keys ==> k in views && views[k].id == k
    ensures forall i :: 0 <= i < |keys| ==> Records(keys, views)[i].id == keys[i]
  {
  }

  /** Loading the saved list of a map restores its iteration order. */
  lemma {:induction false} RecordsLoadKeys(keys: seq<string>, views: map<string, MowerView>)
    requires Distinct(keys) && forall k :: k in keys ==> k in views && views[k].id == k
    ensures LoadKeys([], Records(keys, views)) == keys
  {
    var list := Records(keys, views);
    RecordIds(keys, views);
    if keys != [] {
      var p := keys[..|keys| - 1];
      assert Records(p, views) == list[..|list| - 1];
      RecordsLoadKeys(p, views);
      assert keys[|keys| - 1] !in p;
    }
  }

  /** Loading the saved list of a map gives every id the record of its own
      device. */
  lemma RecordsLoadDevices(keys: seq<string>, views: map<string, MowerView>)
    requires Distinct(keys) && forall k :: k in keys ==> k in views && views[k].id == k
    ensures forall k :: k in keys ==> LastRecord(Records(keys, views), k) == Some(SerializeView(views[k]))
  {
    var list := Records(keys, views);
    RecordIds(keys, views);
    forall k | k in keys ensures LastRecord(list, k) == Some(SerializeView(views[k])) {
      var i :| 0 <= i < |keys| && keys[i] == k;
      LastRecordWins(list, i);
    }
  }

  class Monitor {
    /** `_devices`, the map every handler shares. */
    const devices: DeviceMap
    /** The handlers launched so far, one per `_launchWebSocketLoop`. */
    var handlers: seq<WebsocketHandler>
    /** The messages handed to the notifier's `broadcast`. */
    var broadcasts: seq<string>

    /** A monitor with an empty map; the OAuth and HTTP adapters it builds
        are not modelled. */
    constructor ()
      ensures fresh(devices) && devices.Valid() && devices.items == map[] && devices.keys == []
      ensures handlers == [] && broadcasts == []
    {
      devices := new DeviceMap();
      handlers := [];
      broadcasts := [];
    }

    /** Every handler launched works on this monitor's map. */
    ghost predicate Shared()
      reads this
    {
      forall h :: h in handlers ==> h.devices == devices
    }

    /** `_onMowerEvent`: a handled kind is broadcast, any other is only
        logged. */
    method OnMowerEvent(kind: string, value: Value)
      modifies this`broadcasts
      ensures broadcasts == old(broadcasts) + (if Announced(kind) then [Notification(kind, value).value] else [])
    {
      var message := Notification(kind, value);
      if message.Some? {
        broadcasts := broadcasts + [message.value];
      }
    }

    /** `start`, after the OAuth exchange: the saved list, when there is one,
        is loaded into the map before a loop is launched for each location,
        so every handler starts from the loaded devices. */
    method Start(saved: Option<seq<SerializedMower>>, locations: nat)
      requires devices.Valid() && Shared()
      modifies devices, this`handlers
      ensures devices.Valid() && Shared()
      ensures |handlers| == |old(handlers)| + locations && handlers[..|old(handlers)|] == old(handlers)
      ensures saved.None? ==> devices.items == old(devices.items) && devices.keys == old(devices.keys)
      ensures saved.Some? ==> devices.keys == LoadKeys(old(devices.keys), saved.value)
      ensures saved.Some? ==> forall k :: k in devices.items <==> k in old(devices.items) || LastRecord(saved.value, k).Some?
    {
      if saved.Some? {
        LoadStateFromFile(saved.value);
      }
      ghost var items, keys := devices.items, devices.keys;
      ghost var launched := handlers;
      for i := 0 to locations
        invariant Shared() && |handlers| == |launched| + i && handlers[..|launched|] == launched
        invariant devices.items == items && devices.keys == keys
      {
        var handler := LaunchWebSocketLoop();
      }
    }

    /** `_launchWebSocketLoop`: a new handler over the same map; the devices
        are left exactly as they were. */
    method LaunchWebSocketLoop() returns (handler: WebsocketHandler)
      requires Shared()
      modifies this`handlers
      ensures Shared() && fresh(handler) && handler.devices == devices && handlers == old(handlers) + [handler]
      ensures fresh(handler.emitter) && handler.emitter.emitted == []
    {
      handler := new WebsocketHandler(devices);
      handlers := handlers + [handler];
    }

    /** The two listeners `_launchWebSocketLoop` puts on its handler: a
        forwarded change is announced, a disconnection launches the loop
        again over the same map. */
    method OnHandlerEvent(e: Emission)
      requires Shared()
      modifies this`handlers, this`broadcasts
      ensures Shared()
      ensures e.MowerChange? ==>
        handlers == old(handlers) && broadcasts == old(broadcasts) +
          (if Announced(e.change.kind) then [Notification(e.change.kind, e.change.value).value] else [])
      ensures e.Disconnected? ==>
        broadcasts == old(broadcasts) && |handlers| == |old(handlers)| + 1 && handlers[..|old(handlers)|] == old(handlers)
    {
      match e {
        case MowerChange(c) =>
          OnMowerEvent(c.kind, c.value);
        case Disconnected =>
          var handler := LaunchWebSocketLoop();
      }
    }

    /** `_loadStateFromFile`: every saved record is rebuilt with `fromJson`
        and set under its id, in list order. */
    method LoadStateFromFile(list: seq<SerializedMower>)
      requires devices.Valid()
      modifies devices
      ensures devices.Valid()
      ensures devices.keys == LoadKeys(old(devices.keys), list)
      ensures forall k :: k in devices.items <==> k in old(devices.items) || LastRecord(list, k).Some?
      ensures forall k :: k in devices.items && LastRecord(list, k).Some? ==>
        fresh(devices.items[k]) && Restored(devices.items[k], LastRecord(list, k).value)
      ensures forall k :: k in devices.items && LastRecord(list, k).None? ==> devices.items[k] == old(devices.items[k])
    {
      ghost var start, startKeys := devices.items, devices.keys;
      ghost var made: map<Mower, SerializedMower> := map[];
      var i := 0;
      while i < |list|
        invariant 0 <= i <= |list|
        invariant devices.keys == LoadKeys(startKeys, list[..i])
        invariant LoadedUpTo(devices, start, made, list[..i])
        invariant forall m :: m in made ==> fresh(m) && Restored(m, made[m])
      {
        ghost var before := devices.items;
        var m := LoadRecord(list[i], made);
        LoadKeysStep(startKeys, list, i);
        LoadedStep(devices.items, before, start, m, made, list, i);
        made := made[m := list[i]];
        i := i + 1;
      }
      assert list[..i] == list;
    }

    /** One step of `_loadStateFromFile`: `set(record.id, fromJson(record))`.
        The devices built by earlier steps are left as they were. */
    method LoadRecord(record: SerializedMower, ghost made: map<Mower, SerializedMower>) returns (m: Mower)
      requires devices.Valid()
      requires forall x :: x in made ==> Restored(x, made[x])
      modifies devices
      ensures devices.Valid()
      ensures devices.items == old(devices.items)[record.id := m]
      ensures devices.keys == if record.id in old(devices.items) then old(devices.keys) else old(devices.keys) + [record.id]
      ensures fresh(m) && Restored(m, record) && m !in made
      ensures forall x :: x in made ==> Restored(x, made[x])
    {
      m := Mower.FromJson(record);
      devices.Set(record.id, m);
    }

    /** `persistStateToFile`, before the write: the devices in iteration
        order, each serialized. */
    function PersistStateToFile(): (r: seq<SerializedMower>)
      reads this, devices, devices.items.Values
      requires devices.Valid()
      ensures |r| == |devices.items|
      ensures |r| == |devices.keys| && forall i :: 0 <= i < |r| ==> r[i].id == devices.keys[i]
    {
      ValuesExactlyOnce(devices);
      Records(devices.keys, Views(devices))
    }
  }

  /** Saving the map and loading the saved list into an empty map gives back
      the same ids in the same order, each with a device in the state it was
      saved in. */
  lemma PersistLoadRoundTrip(mon: Monitor)
    requires AllValid(mon.devices)
    ensures var list := mon.PersistStateToFile();
      && LoadKeys([], list) == mon.devices.keys
      && forall k :: k in mon.devices.items ==>
           LastRecord(list, k).Some? && Restore(LastRecord(list, k).value) == mon.devices.items[k].View()
  {
    var d := mon.devices;
    var views := Views(d);
    assert forall k :: k in d.keys ==> k in views && views[k].id == k;
    RecordsLoadKeys(d.keys, views);
    RecordsLoadDevices(d.keys, views);
    forall k | k in d.items
      ensures Restore(SerializeView(views[k])) == d.items[k].View()
    {
      RestoreSerialize(views[k]);
    }
  }
}
