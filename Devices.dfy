/** The `_devices` map that the monitor owns and every frame handler shares:
    a JavaScript `Map` from device id to `Mower`, iterated in insertion order. */
module DeviceMaps {
  import opened Values
  import opened MowerStore

  class DeviceMap {
    var items: map<string, Mower>
    /** The ids in insertion order, the iteration order of a JavaScript `Map`. */
    var keys: seq<string>

    /** The ids are distinct and are exactly the keys of the map, and every
        device is stored under its own id. */
    ghost predicate Valid()
      reads this
    {
      && (forall i, j :: 0 <= i < j < |keys| ==> keys[i] != keys[j])
      && (forall k :: k in items <==> k in keys)
      && (forall k :: k in items ==> items[k].id == k)
    }

    /** `new Map([])`. */
    constructor ()
      ensures Valid() && items == map[] && keys == []
    {
      items := map[];
      keys := [];
    }

    /** `set(id, m)`: a new id goes last in the iteration order, a known one
        keeps its place and has its device replaced. */
    method Set(id: string, m: Mower)
      requires Valid() && m.id == id
      modifies this
      ensures Valid()
      ensures items == old(items)[id := m]
      ensures keys == if id in old(items) then old(keys) else old(keys) + [id]
    {
      if id !in items {
        keys := keys + [id];
      }
      items := items[id := m];
    }

    /** `values()`: the devices in iteration order. */
    function Values(): (r: seq<Mower>)
      reads this
      requires Valid()
      ensures |r| == |keys|
      ensures forall i :: 0 <= i < |r| ==> r[i] == items[keys[i]] && r[i].id == keys[i]
    {
      var ks, devices := keys, items;
      seq(|ks|, i requires 0 <= i < |ks| => devices[ks[i]])
    }
  }

  /** A device as every frame handler leaves it: consistent, with at most
      one change listener and with its emitter enabled. */
  ghost predicate DeviceReady(m: Mower)
    reads m
  {
    m.Valid() && |m.listeners| <= 1 && !m.disableEmitter
  }

  /** The map is well formed and the device stored under `id`, if any, is
      ready. */
  ghost predicate ReadyAt(d: DeviceMap, id: string)
    reads d, DeviceAt(d, id)
  {
    d.Valid() && (id in d.items ==> DeviceReady(d.items[id]))
  }

  /** The device stored under `id`, if any, as a frame. */
  function DeviceAt(d: DeviceMap, id: string): set<Mower>
    reads d
  {
    if id in d.items then {d.items[id]} else {}
  }

  /** The device a frame addresses before the frame arrives: the stored one,
      or, for an id the map does not know, the device `new Mower(id)` would
      make. */
  function Addressed(d: DeviceMap, id: string): MowerView
    reads d, DeviceAt(d, id)
  {
    if id in d.items then d.items[id].View() else Initial(id)
  }

  /** The listeners of the device stored under `id`, if any. */
  function ListenersAt(d: DeviceMap, id: string): seq<HandlerChannel>
    reads d, DeviceAt(d, id)
  {
    if id in d.items then d.items[id].listeners else []
  }

  /** The state of every device, by id. */
  function Views(d: DeviceMap): (r: map<string, MowerView>)
    reads d, d.items.Values
    ensures r.Keys == d.items.Keys
  {
    map k | k in d.items :: d.items[k].View()
  }

  /** `values()` lists every device exactly once: as many devices as ids,
      each device stored at a distinct position. */
  lemma {:induction false} ValuesExactlyOnce(d: DeviceMap)
    requires d.Valid()
    ensures |d.Values()| == |d.items|
    ensures forall k :: k in d.items ==> d.items[k] in d.Values()
    ensures forall i, j :: 0 <= i < j < |d.Values()| ==> d.Values()[i] != d.Values()[j]
  {
    var vs := d.Values();
    forall k | k in d.items ensures d.items[k] in vs {
      var i :| 0 <= i < |d.keys| && d.keys[i] == k;
      assert vs[i] == d.items[k];
    }
    forall i, j | 0 <= i < j < |vs| ensures vs[i] != vs[j] {
      assert vs[i].id == d.keys[i] && vs[j].id == d.keys[j];
    }
    DistinctCardinality(d.keys);
    assert (set k | k in d.keys) == d.items.Keys;
  }

  /** A sequence without repetitions has as many elements as its set. */
  lemma {:induction false} DistinctCardinality(s: seq<string>)
    requires forall i, j :: 0 <= i < j < |s| ==> s[i] != s[j]
    ensures |set k | k in s| == |s|
  {
    if s != [] {
      var p := s[..|s| - 1];
      DistinctCardinality(p);
      assert (set k | k in s) == (set k | k in p) + {s[|s| - 1]};
      assert s[|s| - 1] !in p;
    }
  }
}
