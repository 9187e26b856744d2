/** The observation store of one device (class `Mower` of src/Mower.js):
    four latest-write attributes, seven timestamped series with a cached
    current value each, and change events for state, activity and error. */
module MowerStore {
  import opened Values
  import opened Series

  /** The seven series a device keeps. */
  datatype SeriesName = State | Activity | Error | BatteryLevel | BatteryState | RfLinkLevel | RfLinkState
  {
    /** The change-event kind an insertion into this series raises, if any. */
    function ChangeKind(): Option<string> {
      match this
      case State => Some(MOWER_STATE)
      case Activity => Some(MOWER_ACTIVITY)
      case Error => Some(MOWER_ERROR)
      case _ => None
    }
  }

  /** The seven series of a device and their cached current values. */
  datatype SeriesStore = SeriesStore(
    lastState: Value, lastActivity: Value, lastError: Value,
    lastBatteryLevel: Value, lastBatteryState: Value,
    lastRfLinkLevel: Value, lastRfLinkState: Value,
    states: seq<Entry>, activities: seq<Entry>, errors: seq<Entry>,
    batteryLevels: seq<Entry>, batteryStates: seq<Entry>,
    rfLinkLevels: seq<Entry>, rfLinkStates: seq<Entry>)
  {
    function History(s: SeriesName): seq<Entry> {
      match s
      case State => states
      case Activity => activities
      case Error => errors
      case BatteryLevel => batteryLevels
      case BatteryState => batteryStates
      case RfLinkLevel => rfLinkLevels
      case RfLinkState => rfLinkStates
    }

    /** The cached current value of a series (its `last*` field). */
    function Current(s: SeriesName): Value {
      match s
      case State => lastState
      case Activity => lastActivity
      case Error => lastError
      case BatteryLevel => lastBatteryLevel
      case BatteryState => lastBatteryState
      case RfLinkLevel => lastRfLinkLevel
      case RfLinkState => lastRfLinkState
    }

    /** Every cached current value is the value at its series' greatest
        timestamp (`null` for an empty series). */
    ghost predicate Consistent() {
      forall s: SeriesName :: Current(s) == FindLastByMapKey(History(s))
    }

    /** Series `s` replaced by `h`, its current value recomputed. */
    function WithHistory(s: SeriesName, h: seq<Entry>): SeriesStore {
      var c := FindLastByMapKey(h);
      match s
      case State => this.(states := h, lastState := c)
      case Activity => this.(activities := h, lastActivity := c)
      case Error => this.(errors := h, lastError := c)
      case BatteryLevel => this.(batteryLevels := h, lastBatteryLevel := c)
      case BatteryState => this.(batteryStates := h, lastBatteryState := c)
      case RfLinkLevel => this.(rfLinkLevels := h, lastRfLinkLevel := c)
      case RfLinkState => this.(rfLinkStates := h, lastRfLinkState := c)
    }

    /** Series `s` extended by `es`, its current value recomputed. */
    function WithEntries(s: SeriesName, es: seq<Entry>): SeriesStore {
      WithHistory(s, History(s) + es)
    }

    /** The store after the `add*` method of series `s` records entry `e`. */
    function WithEntry(s: SeriesName, e: Entry): SeriesStore {
      WithHistory(s, History(s) + [e])
    }

    /** The change event that recording `e` in series `s` raises: one event
        carrying the new current value when the series notifies and its
        current value changes, none otherwise. */
    function ChangeOn(s: SeriesName, e: Entry): seq<Change> {
      var c := FindLastByMapKey(History(s) + [e]);
      match s.ChangeKind()
      case None => []
      case Some(kind) => if c != Current(s) then [Change(kind, c)] else []
    }
  }

  /** Everything a `Mower` holds apart from its emitter. */
  datatype MowerView = MowerView(
    id: string, name: Value, serial: Value, modelType: Value, operatingHours: Value,
    store: SeriesStore)

  const EmptyStore: SeriesStore :=
    SeriesStore(Null, Null, Null, Null, Null, Null, Null, [], [], [], [], [], [], [])

  /** The state of `new Mower(id)`. */
  function Initial(id: string): MowerView {
    MowerView(id, Null, Null, Null, Num(0), EmptyStore)
  }

  /** Replacing a history keeps every cached current value consistent and
      leaves the other series alone. */
  lemma WithHistoryConsistent(v: SeriesStore, s: SeriesName, h: seq<Entry>)
    requires v.Consistent()
    ensures v.WithHistory(s, h).Consistent()
    ensures v.WithHistory(s, h).History(s) == h
    ensures forall t :: t != s ==> v.WithHistory(s, h).History(t) == v.History(t)
  {
    var w := v.WithHistory(s, h);
    forall t: SeriesName ensures w.Current(t) == FindLastByMapKey(w.History(t)) {
      if t != s {
        assert w.Current(t) == v.Current(t) && w.History(t) == v.History(t);
      }
    }
  }

  lemma WithOwnHistory(v: SeriesStore, s: SeriesName)
    requires v.Consistent()
    ensures v.WithHistory(s, v.History(s)) == v
  {
  }

  lemma WithHistoryTwice(v: SeriesStore, s: SeriesName, h1: seq<Entry>, h2: seq<Entry>)
    ensures v.WithHistory(s, h1).WithHistory(s, h2) == v.WithHistory(s, h2)
  {
  }

  /** Recording entries into series `s` extends that series only. */
  lemma WithEntriesHistory(v: SeriesStore, s: SeriesName, es: seq<Entry>, t: SeriesName)
    ensures v.WithEntries(s, es).History(t) == if t == s then v.History(s) + es else v.History(t)
  {
  }

  /** Recording no entry changes nothing. */
  lemma WithEntriesNone(v: SeriesStore, s: SeriesName)
    requires v.Consistent()
    ensures v.WithEntries(s, []) == v
  {
    assert v.History(s) + [] == v.History(s);
    WithOwnHistory(v, s);
  }

  /** Recording entries one at a time keeps the store consistent and is the
      same as recording them together. */
  lemma WithEntriesSnoc(v: SeriesStore, s: SeriesName, es: seq<Entry>, e: Entry)
    requires v.Consistent()
    ensures v.WithEntries(s, es).Consistent()
    ensures v.WithEntries(s, es).WithEntry(s, e) == v.WithEntries(s, es + [e])
  {
    var h := v.History(s) + es;
    assert h + [e] == v.History(s) + (es + [e]);
    WithHistoryConsistent(v, s, h);
    WithHistoryTwice(v, s, h, h + [e]);
  }

  /** A new device's caches agree with its (empty) series. */
  lemma EmptyConsistent()
    ensures EmptyStore.Consistent()
  {
  }

  /** The cached current values are determined by the histories: two
      consistent stores with the same seven series are equal. */
  lemma HistoriesDetermineStore(a: SeriesStore, b: SeriesStore)
    requires a.Consistent() && b.Consistent()
    requires forall t :: a.History(t) == b.History(t)
    ensures a == b
  {
    forall t ensures a.Current(t) == b.Current(t) {
      assert a.Current(t) == FindLastByMapKey(a.History(t));
    }
    assert a.Current(State) == b.Current(State) && a.History(State) == b.History(State);
    assert a.Current(Activity) == b.Current(Activity) && a.History(Activity) == b.History(Activity);
    assert a.Current(Error) == b.Current(Error) && a.History(Error) == b.History(Error);
    assert a.Current(BatteryLevel) == b.Current(BatteryLevel) && a.History(BatteryLevel) == b.History(BatteryLevel);
    assert a.Current(BatteryState) == b.Current(BatteryState) && a.History(BatteryState) == b.History(BatteryState);
    assert a.Current(RfLinkLevel) == b.Current(RfLinkLevel) && a.History(RfLinkLevel) == b.History(RfLinkLevel);
    assert a.Current(RfLinkState) == b.Current(RfLinkState) && a.History(RfLinkState) == b.History(RfLinkState);
  }

  /** Recording an entry makes the series' value at its greatest timestamp
      the new current value and leaves every other series alone. */
  lemma WithEntryCurrent(v: SeriesStore, s: SeriesName, e: Entry)
    requires v.Consistent()
    ensures v.WithEntry(s, e).Consistent()
    ensures v.WithEntry(s, e).History(s) == v.History(s) + [e]
    ensures v.WithEntry(s, e).Current(s) == FindLastByMapKey(v.History(s) + [e])
    ensures forall t :: t != s ==> v.WithEntry(s, e).History(t) == v.History(t)
    ensures forall t :: t != s ==> v.WithEntry(s, e).Current(t) == v.Current(t)
  {
    WithHistoryConsistent(v, s, v.History(s) + [e]);
  }

  /** An entry older than the newest one of its series (a late report) leaves
      the current value as it was and raises no change event. */
  lemma OlderEntryIsSilent(v: SeriesStore, s: SeriesName, e: Entry)
    requires v.Consistent()
    requires v.History(s) != [] && e.time < MaxTime(v.History(s))
    ensures v.WithEntry(s, e).Current(s) == v.Current(s)
    ensures v.ChangeOn(s, e) == []
  {
    FindLastAfterAppend(v.History(s), e);
    WithEntryCurrent(v, s, e);
  }

  /** An entry at or after the newest timestamp of its series becomes the
      current value; state, activity and error then raise one change event
      carrying it exactly when it differs from the previous current value. */
  lemma NewerEntryBecomesCurrent(v: SeriesStore, s: SeriesName, e: Entry)
    requires v.Consistent()
    requires v.History(s) == [] || MaxTime(v.History(s)) <= e.time
    ensures v.WithEntry(s, e).Current(s) == e.value
    ensures s.ChangeKind().None? ==> v.ChangeOn(s, e) == []
    ensures s.ChangeKind().Some? && e.value != v.Current(s) ==>
      v.ChangeOn(s, e) == [Change(s.ChangeKind().value, e.value)]
    ensures e.value == v.Current(s) ==> v.ChangeOn(s, e) == []
  {
    FindLastAfterAppend(v.History(s), e);
    WithEntryCurrent(v, s, e);
  }

  /** At most one change event per insertion, raised exactly when a
      notifying series' current value changes, and carrying the new value. */
  lemma ChangeOnExactly(v: SeriesStore, s: SeriesName, e: Entry)
    requires v.Consistent()
    ensures |v.ChangeOn(s, e)| <= 1
    ensures v.ChangeOn(s, e) != [] <==>
      s.ChangeKind().Some? && v.WithEntry(s, e).Current(s) != v.Current(s)
    ensures v.ChangeOn(s, e) != [] ==>
      v.ChangeOn(s, e) == [Change(s.ChangeKind().value, v.WithEntry(s, e).Current(s))]
  {
    WithEntryCurrent(v, s, e);
  }

  /** One element of the persisted device list, with the fields of `serialize()`. */
  datatype SerializedMower = SerializedMower(
    id: string,
    name: Value, serial: Value, modelType: Value, operatingHours: Value,
    lastState: Value, lastActivity: Value,
    lastBatteryLevel: Value, lastBatteryState: Value,
    lastRfLinkLevel: Value, lastRfLinkState: Value, lastError: Value,
    states: seq<Entry>, activities: seq<Entry>,
    batteryStates: seq<Entry>, batteryLevels: seq<Entry>,
    rfLinkStates: seq<Entry>, rfLinkLevels: seq<Entry>, errors: seq<Entry>)
  {
    /** The persisted entries of series `t`. */
    function History(t: SeriesName): seq<Entry> {
      match t
      case State => states
      case Activity => activities
      case Error => errors
      case BatteryLevel => batteryLevels
      case BatteryState => batteryStates
      case RfLinkLevel => rfLinkLevels
      case RfLinkState => rfLinkStates
    }
  }

  function SerializeView(v: MowerView): SerializedMower {
    var st := v.store;
    SerializedMower(v.id, v.name, v.serial, v.modelType, v.operatingHours,
                    st.lastState, st.lastActivity, st.lastBatteryLevel, st.lastBatteryState,
                    st.lastRfLinkLevel, st.lastRfLinkState, st.lastError,
                    st.states, st.activities, st.batteryStates, st.batteryLevels,
                    st.rfLinkStates, st.rfLinkLevels, st.errors)
  }

  /** The series of a persisted record, in the order `fromJson` replays them. */
  function ReplayOrder(j: SerializedMower): seq<(SeriesName, seq<Entry>)> {
    [(State, j.states), (Activity, j.activities), (BatteryState, j.batteryStates),
     (BatteryLevel, j.batteryLevels), (RfLinkState, j.rfLinkStates),
     (RfLinkLevel, j.rfLinkLevels), (Error, j.errors)]
  }

  /** `st` after every `(series, entries)` pair of `order` is recorded, in order. */
  function ReplayAll(st: SeriesStore, order: seq<(SeriesName, seq<Entry>)>): SeriesStore {
    if order == [] then st
    else
      var last := order[|order| - 1];
      ReplayAll(st, order[..|order| - 1]).WithEntries(last.0, last.1)
  }

  /** The entries `order` replays into series `t`, in order. */
  function EntriesFor(order: seq<(SeriesName, seq<Entry>)>, t: SeriesName): seq<Entry> {
    if order == [] then []
    else
      var last := order[|order| - 1];
      EntriesFor(order[..|order| - 1], t) + (if last.0 == t then last.1 else [])
  }

  /** Replaying keeps a store consistent. */
  lemma {:induction false} ReplayAllConsistent(st: SeriesStore, order: seq<(SeriesName, seq<Entry>)>)
    requires st.Consistent()
    ensures ReplayAll(st, order).Consistent()
  {
    if order != [] {
      var prefix, last := order[..|order| - 1], order[|order| - 1];
      ReplayAllConsistent(st, prefix);
      var w := ReplayAll(st, prefix);
      WithHistoryConsistent(w, last.0, w.History(last.0) + last.1);
    }
  }

  /** After replaying, each series is its old history followed by every
      entry replayed into it, in order. */
  lemma {:induction false} ReplayAllHistory(st: SeriesStore, order: seq<(SeriesName, seq<Entry>)>, t: SeriesName)
    ensures ReplayAll(st, order).History(t) == st.History(t) + EntriesFor(order, t)
  {
    if order == [] {
      assert st.History(t) + [] == st.History(t);
    } else {
      var prefix, last := order[..|order| - 1], order[|order| - 1];
      ReplayAllHistory(st, prefix, t);
      var w := ReplayAll(st, prefix);
      WithEntriesHistory(w, last.0, last.1, t);
      assert st.History(t) + EntriesFor(prefix, t) + (if last.0 == t then last.1 else [])
          == st.History(t) + (EntriesFor(prefix, t) + (if last.0 == t then last.1 else []));
    }
  }

  /** `fromJson` replays each persisted series once, into its own series. */
  lemma ReplayOrderEntries(j: SerializedMower, t: SeriesName)
    ensures EntriesFor(ReplayOrder(j), t) == j.History(t)
  {
    var o := ReplayOrder(j);
    assert EntriesFor(o[..0], t) == [];
    assert o[..1][..0] == o[..0];
    assert EntriesFor(o[..1], t) == EntriesFor(o[..0], t) + (if t == State then j.states else []);
    assert o[..2][..1] == o[..1];
    assert EntriesFor(o[..2], t) == EntriesFor(o[..1], t) + (if t == Activity then j.activities else []);
    assert o[..3][..2] == o[..2];
    assert EntriesFor(o[..3], t) == EntriesFor(o[..2], t) + (if t == BatteryState then j.batteryStates else []);
    assert o[..4][..3] == o[..3];
    assert EntriesFor(o[..4], t) == EntriesFor(o[..3], t) + (if t == BatteryLevel then j.batteryLevels else []);
    assert o[..5][..4] == o[..4];
    assert EntriesFor(o[..5], t) == EntriesFor(o[..4], t) + (if t == RfLinkState then j.rfLinkStates else []);
    assert o[..6][..5] == o[..5];
    assert EntriesFor(o[..6], t) == EntriesFor(o[..5], t) + (if t == RfLinkLevel then j.rfLinkLevels else []);
    assert o[..7][..6] == o[..6];
    assert EntriesFor(o[..7], t) == EntriesFor(o[..6], t) + (if t == Error then j.errors else []);
    assert o[..7] == o;
  }

  /** The series of the device `fromJson` builds are those of the record. */
  lemma RestoreStoreHistories(j: SerializedMower)
    ensures RestoreStore(j).Consistent()
    ensures forall t :: RestoreStore(j).History(t) == j.History(t)
  {
    EmptyConsistent();
    ReplayAllConsistent(EmptyStore, ReplayOrder(j));
    forall t ensures RestoreStore(j).History(t) == j.History(t) {
      ReplayAllHistory(EmptyStore, ReplayOrder(j), t);
      ReplayOrderEntries(j, t);
    }
  }

  /** The series `fromJson` rebuilds from a persisted record. */
  function RestoreStore(j: SerializedMower): SeriesStore {
    ReplayAll(EmptyStore, ReplayOrder(j))
  }

  /** The state `fromJson` builds. */
  function Restore(j: SerializedMower): MowerView {
    MowerView(j.id, j.name, j.serial, j.modelType, j.operatingHours, RestoreStore(j))
  }

  /** The round trip, for any device state: a consistent one is rebuilt. */
  lemma SerializeRestores(v: MowerView)
    ensures v.store.Consistent() ==> Restore(SerializeView(v)) == v
  {
    if v.store.Consistent() {
      RestoreSerialize(v);
    }
  }

  /** `fromJson(serialize())` rebuilds the device it was given: attributes,
      all seven series and, recomputed from them, the cached current values. */
  lemma {:induction false} RestoreSerialize(v: MowerView)
    requires v.store.Consistent()
    ensures Restore(SerializeView(v)) == v
  {
    var j := SerializeView(v);
    RestoreStoreHistories(j);
    assert forall t :: j.History(t) == v.store.History(t);
    HistoriesDetermineStore(RestoreStore(j), v.store);
  }

  /** What a listener registered `n` times receives when `changes` are
      emitted in order: each change, `n` times. */
  function Deliveries(changes: seq<Change>, n: nat): seq<Emission> {
    if changes == [] then []
    else Deliveries(changes[..|changes| - 1], n) + Repeat(MowerChange(changes[|changes| - 1]), n)
  }

  lemma DeliveriesSingle(c: Change)
    ensures forall n :: Deliveries([c], n) == Repeat(MowerChange(c), n)
  {
    assert [c][..0] == [];
  }

  /** Emitting two batches delivers the first batch, then the second. */
  lemma {:induction false} DeliveriesAppend(p: seq<Change>, q: seq<Change>, n: nat)
    ensures Deliveries(p + q, n) == Deliveries(p, n) + Deliveries(q, n)
  {
    if q == [] {
      assert p + q == p;
    } else {
      assert (p + q)[..|p + q| - 1] == p + q[..|q| - 1];
      DeliveriesAppend(p, q[..|q| - 1], n);
    }
  }

  /** A listener registered once receives every change once, in order. */
  lemma {:induction false} DeliveriesOnce(changes: seq<Change>)
    ensures |Deliveries(changes, 1)| == |changes|
    ensures forall i :: 0 <= i < |changes| ==> Deliveries(changes, 1)[i] == MowerChange(changes[i])
  {
    if changes != [] {
      DeliveriesOnce(changes[..|changes| - 1]);
    }
  }

  class Mower {
    const id: string
    var name: Value
    var serial: Value
    var modelType: Value
    var operatingHours: Value

    var lastState: Value
    var lastActivity: Value
    var lastError: Value
    var lastBatteryLevel: Value
    var lastBatteryState: Value
    var lastRfLinkLevel: Value
    var lastRfLinkState: Value

    var states: seq<Entry>
    var activities: seq<Entry>
    var errors: seq<Entry>
    var batteryLevels: seq<Entry>
    var batteryStates: seq<Entry>
    var rfLinkLevels: seq<Entry>
    var rfLinkStates: seq<Entry>

    var disableEmitter: bool
    /** Listeners of MOWER_EVENT_CHANGE, each the emitter it forwards to. */
    var listeners: seq<HandlerChannel>
    /** Every change that passed the emitter gate, in order. */
    ghost var published: seq<Change>

    function Store(): SeriesStore
      reads this`lastState, this`lastActivity, this`lastError, this`lastBatteryLevel
      reads this`lastBatteryState, this`lastRfLinkLevel, this`lastRfLinkState
      reads this`states, this`activities, this`errors, this`batteryLevels
      reads this`batteryStates, this`rfLinkLevels, this`rfLinkStates
    {
      SeriesStore(lastState, lastActivity, lastError, lastBatteryLevel, lastBatteryState,
                  lastRfLinkLevel, lastRfLinkState,
                  states, activities, errors, batteryLevels, batteryStates, rfLinkLevels, rfLinkStates)
    }

    function View(): MowerView
      reads this`name, this`serial, this`modelType, this`operatingHours
      reads this`lastState, this`lastActivity, this`lastError, this`lastBatteryLevel
      reads this`lastBatteryState, this`lastRfLinkLevel, this`lastRfLinkState
      reads this`states, this`activities, this`errors, this`batteryLevels
      reads this`batteryStates, this`rfLinkLevels, this`rfLinkStates
    {
      MowerView(id, name, serial, modelType, operatingHours, Store())
    }

    ghost predicate Valid()
      reads this`lastState, this`lastActivity, this`lastError, this`lastBatteryLevel
      reads this`lastBatteryState, this`lastRfLinkLevel, this`lastRfLinkState
      reads this`states, this`activities, this`errors, this`batteryLevels
      reads this`batteryStates, this`rfLinkLevels, this`rfLinkStates
    {
      Store().Consistent()
    }

    constructor (id: string)
      ensures Valid() && View() == Initial(id)
      ensures listeners == [] && published == [] && !disableEmitter
    {
      this.id := id;
      operatingHours := Num(0);
      name, serial, modelType := Null, Null, Null;
      lastState, lastActivity, lastError := Null, Null, Null;
      lastBatteryLevel, lastBatteryState, lastRfLinkLevel, lastRfLinkState := Null, Null, Null, Null;
      states, activities, errors := [], [], [];
      batteryLevels, batteryStates, rfLinkLevels, rfLinkStates := [], [], [], [];
      disableEmitter := false;
      listeners := [];
      published := [];
    }

    /** `fromJson`: a new device whose attributes and histories are those of
        `json`, built with the emitter disabled so that nothing is published. */
    static method FromJson(json: SerializedMower) returns (m: Mower)
      ensures fresh(m) && m.Valid() && m.View() == Restore(json)
      ensures m.listeners == [] && m.published == [] && !m.disableEmitter
    {
      m := new Mower(json.id);
      m.name, m.serial, m.modelType, m.operatingHours := json.name, json.serial, json.modelType, json.operatingHours;
      ghost var attributes := (m.name, m.serial, m.modelType, m.operatingHours);
      m.ReplayPersisted(json);
      assert attributes == (m.name, m.serial, m.modelType, m.operatingHours);
    }

    /** The series part of `fromJson`: every persisted series is replayed
        with the emitter disabled, which is enabled again afterwards. */
    method ReplayPersisted(json: SerializedMower)
      requires Store() == EmptyStore && !disableEmitter && listeners == []
      modifies this`disableEmitter
      modifies this`lastState, this`lastActivity, this`lastError, this`lastBatteryLevel
      modifies this`lastBatteryState, this`lastRfLinkLevel, this`lastRfLinkState
      modifies this`states, this`activities, this`errors, this`batteryLevels
      modifies this`batteryStates, this`rfLinkLevels, this`rfLinkStates
      modifies this`published
      ensures Valid() && Store() == RestoreStore(json)
      ensures published == old(published) && !disableEmitter
    {
      disableEmitter := true;
      EmptyConsistent();
      ReplayAllSeries(ReplayOrder(json));
      disableEmitter := false;
    }

    /** The `forEach` loops of `fromJson`: each `(series, entries)` pair
        of `order` is replayed in turn. */
    method ReplayAllSeries(order: seq<(SeriesName, seq<Entry>)>)
      requires Valid() && disableEmitter && listeners == []
      modifies this`lastState, this`lastActivity, this`lastError, this`lastBatteryLevel
      modifies this`lastBatteryState, this`lastRfLinkLevel, this`lastRfLinkState
      modifies this`states, this`activities, this`errors, this`batteryLevels
      modifies this`batteryStates, this`rfLinkLevels, this`rfLinkStates
      modifies this`published
      ensures Valid() && published == old(published)
      ensures Store() == ReplayAll(old(Store()), order)
    {
      ghost var start := Store();
      for k := 0 to |order|
        invariant Valid() && published == old(published)
        invariant Store() == ReplayAll(start, order[..k])
        invariant disableEmitter && listeners == []
      {
        ghost var next := order[..k + 1];
        assert next[..k] == order[..k];
        Replay(order[k].0, order[k].1);
        assert Store() == ReplayAll(start, next);
      }
      assert order[..|order|] == order;
    }

    /** One `forEach` of `fromJson`: every entry of a persisted history is
        recorded, in order, through the `add*` method of series `s`. */
    method Replay(s: SeriesName, entries: seq<Entry>)
      requires Valid() && disableEmitter && listeners == []
      modifies this`lastState, this`lastActivity, this`lastError, this`lastBatteryLevel
      modifies this`lastBatteryState, this`lastRfLinkLevel, this`lastRfLinkState
      modifies this`states, this`activities, this`errors, this`batteryLevels
      modifies this`batteryStates, this`rfLinkLevels, this`rfLinkStates
      modifies this`published
      ensures Valid() && published == old(published)
      ensures Store() == old(Store()).WithEntries(s, entries)
    {
      ghost var start := Store();
      WithEntriesNone(start, s);
      for i := 0 to |entries|
        invariant Valid() && published == old(published)
        invariant Store() == start.WithEntries(s, entries[..i])
        invariant disableEmitter && listeners == []
      {
        ghost var done := entries[..i];
        ghost var next := entries[..i + 1];
        assert done + [entries[i]] == next;
        WithEntriesSnoc(start, s, done, entries[i]);
        Add(s, entries[i]);
        assert Store() == start.WithEntries(s, next);
      }
      assert entries[..|entries|] == entries;
    }

    /** The `add*` method of series `s`. */
    method Add(s: SeriesName, e: Entry)
      requires Valid()
      modifies this`lastState, this`lastActivity, this`lastError, this`lastBatteryLevel
      modifies this`lastBatteryState, this`lastRfLinkLevel, this`lastRfLinkState
      modifies this`states, this`activities, this`errors, this`batteryLevels
      modifies this`batteryStates, this`rfLinkLevels, this`rfLinkStates
      modifies this`published, listeners
      ensures Valid() && Store() == old(Store()).WithEntry(s, e)
      ensures var changes := old(Store()).ChangeOn(s, e);
        && published == old(published) + Gated(disableEmitter, changes)
        && forall l :: l in listeners ==>
             l.emitted == old(l.emitted) + Gated(disableEmitter, Deliveries(changes, Count(listeners, l)))
    {
      match s {
        case State => AddState(e.value, e.time);
        case Activity => AddActivity(e.value, e.time);
        case Error => AddError(e.value, e.time);
        case BatteryLevel => AddBatteryLevel(e.value, e.time);
        case BatteryState => AddBatteryState(e.value, e.time);
        case RfLinkLevel => AddRfLinkLevel(e.value, e.time);
        case RfLinkState => AddRfLinkState(e.value, e.time);
      }
    }

    /** `set name`: overwrites the attribute; no history, no event. */
    method SetName(value: Value)
      modifies this`name
      ensures View() == old(View()).(name := value)
    {
      name := value;
    }

    /** `set serial`. */
    method SetSerial(value: Value)
      modifies this`serial
      ensures View() == old(View()).(serial := value)
    {
      serial := value;
    }

    /** `set modelType`. */
    method SetModelType(value: Value)
      modifies this`modelType
      ensures View() == old(View()).(modelType := value)
    {
      modelType := value;
    }

    /** `set operatingHours`. */
    method SetOperatingHours(value: Value)
      modifies this`operatingHours
      ensures View() == old(View()).(operatingHours := value)
    {
      operatingHours := value;
    }

    /** EventEmitter `listenerCount(MOWER_EVENT_CHANGE)`. */
    function ListenerCount(): (n: nat)
      reads this`listeners
      ensures n == 0 <==> listeners == []
    {
      |listeners|
    }

    /** EventEmitter `on(MOWER_EVENT_CHANGE, listener)`. */
    method On(listener: HandlerChannel)
      modifies this`listeners
      ensures listeners == old(listeners) + [listener]
    {
      listeners := listeners + [listener];
    }

    /** `emit`: nothing while the emitter is disabled; otherwise every listener
        is called once per registration, in order. Answers whether a listener
        was called. */
    method Emit(change: Change) returns (delivered: bool)
      modifies this`published, listeners
      ensures delivered == (!disableEmitter && |listeners| > 0)
      ensures published == old(published) + Gated(disableEmitter, [change])
      ensures forall l :: l in listeners ==>
        l.emitted == old(l.emitted) + Gated(disableEmitter, Repeat(MowerChange(change), Count(listeners, l)))
    {
      if disableEmitter {
        return false;
      }
      published := published + [change];
      for i := 0 to |listeners|
        invariant published == old(published) + [change]
        invariant forall l :: l in listeners ==>
          l.emitted == old(l.emitted) + Repeat(MowerChange(change), Count(listeners[..i], l))
      {
        var l := listeners[i];
        l.emitted := l.emitted + [MowerChange(change)];
        forall x | x in listeners
          ensures x.emitted == old(x.emitted) + Repeat(MowerChange(change), Count(listeners[..i + 1], x))
        {
          assert listeners[..i + 1][..i] == listeners[..i];
        }
      }
      assert listeners[..|listeners|] == listeners;
      delivered := |listeners| > 0;
    }

    /** `addState`: records the entry, recomputes the current state and emits
        it when it differs from the previous one. */
    method AddState(value: Value, eventDate: Time)
      requires Valid()
      modifies this`states, this`lastState, this`published, listeners
      ensures Valid()
      ensures Store() == old(Store()).WithEntry(State, Entry(eventDate, value))
      ensures var changes := old(Store()).ChangeOn(State, Entry(eventDate, value));
        && published == old(published) + Gated(disableEmitter, changes)
        && forall l :: l in listeners ==>
             l.emitted == old(l.emitted) + Gated(disableEmitter, Deliveries(changes, Count(listeners, l)))
    {
      ghost var before := Store();
      ghost var changes := before.ChangeOn(State, Entry(eventDate, value));
      WithHistoryConsistent(before, State, before.History(State) + [Entry(eventDate, value)]);
      var previousState := lastState;
      states := states + [Entry(eventDate, value)];
      lastState := FindLastByMapKey(states);
      assert Store() == before.WithEntry(State, Entry(eventDate, value));
      assert changes == if previousState != lastState then [Change(MOWER_STATE, lastState)] else [];
      if previousState != lastState {
        DeliveriesSingle(Change(MOWER_STATE, lastState));
        var delivered := Emit(Change(MOWER_STATE, lastState));
      }
      var kept := CleanupMap(states, LIST_ITEM_LIMIT);
      assert kept == states;
      states := kept;
    }

    /** `addActivity`: as `addState`, for the activity series. */
    method AddActivity(value: Value, eventDate: Time)
      requires Valid()
      modifies this`activities, this`lastActivity, this`published, listeners
      ensures Valid()
      ensures Store() == old(Store()).WithEntry(Activity, Entry(eventDate, value))
      ensures var changes := old(Store()).ChangeOn(Activity, Entry(eventDate, value));
        && published == old(published) + Gated(disableEmitter, changes)
        && forall l :: l in listeners ==>
             l.emitted == old(l.emitted) + Gated(disableEmitter, Deliveries(changes, Count(listeners, l)))
    {
      ghost var before := Store();
      ghost var changes := before.ChangeOn(Activity, Entry(eventDate, value));
      WithHistoryConsistent(before, Activity, before.History(Activity) + [Entry(eventDate, value)]);
      var previousActivity := lastActivity;
      activities := activities + [Entry(eventDate, value)];
      lastActivity := FindLastByMapKey(activities);
      assert Store() == before.WithEntry(Activity, Entry(eventDate, value));
      assert changes == if previousActivity != lastActivity then [Change(MOWER_ACTIVITY, lastActivity)] else [];
      if previousActivity != lastActivity {
        DeliveriesSingle(Change(MOWER_ACTIVITY, lastActivity));
        var delivered := Emit(Change(MOWER_ACTIVITY, lastActivity));
      }
      var kept := CleanupMap(activities, LIST_ITEM_LIMIT);
      assert kept == activities;
      activities := kept;
    }

    /** `addError`: as `addState`, for the error series. */
    method AddError(value: Value, eventDate: Time)
      requires Valid()
      modifies this`errors, this`lastError, this`published, listeners
      ensures Valid()
      ensures Store() == old(Store()).WithEntry(Error, Entry(eventDate, value))
      ensures var changes := old(Store()).ChangeOn(Error, Entry(eventDate, value));
        && published == old(published) + Gated(disableEmitter, changes)
        && forall l :: l in listeners ==>
             l.emitted == old(l.emitted) + Gated(disableEmitter, Deliveries(changes, Count(listeners, l)))
    {
      ghost var before := Store();
      ghost var changes := before.ChangeOn(Error, Entry(eventDate, value));
      WithHistoryConsistent(before, Error, before.History(Error) + [Entry(eventDate, value)]);
      var previousError := lastError;
      errors := errors + [Entry(eventDate, value)];
      lastError := FindLastByMapKey(errors);
      assert Store() == before.WithEntry(Error, Entry(eventDate, value));
      assert changes == if previousError != lastError then [Change(MOWER_ERROR, lastError)] else [];
      if previousError != lastError {
        DeliveriesSingle(Change(MOWER_ERROR, lastError));
        var delivered := Emit(Change(MOWER_ERROR, lastError));
      }
      var kept := CleanupMap(errors, LIST_ITEM_LIMIT);
      assert kept == errors;
      errors := kept;
    }

    /** `addBatteryLevel`: records the entry and recomputes the current level;
        touches nothing but that series and its cached value. */
    method AddBatteryLevel(value: Value, eventDate: Time)
      requires Valid()
      modifies this`batteryLevels, this`lastBatteryLevel
      ensures Valid()
      ensures Store() == old(Store()).WithEntry(BatteryLevel, Entry(eventDate, value))
    {
      ghost var before := Store();
      WithHistoryConsistent(before, BatteryLevel, before.History(BatteryLevel) + [Entry(eventDate, value)]);
      batteryLevels := batteryLevels + [Entry(eventDate, value)];
      lastBatteryLevel := FindLastByMapKey(batteryLevels);
      assert Store() == before.WithEntry(BatteryLevel, Entry(eventDate, value));
      var kept := CleanupMap(batteryLevels, LIST_ITEM_LIMIT);
      assert kept == batteryLevels;
      batteryLevels := kept;
    }

    /** `addBatteryState`: as `addBatteryLevel`, for the battery state. */
    method AddBatteryState(value: Value, eventDate: Time)
      requires Valid()
      modifies this`batteryStates, this`lastBatteryState
      ensures Valid()
      ensures Store() == old(Store()).WithEntry(BatteryState, Entry(eventDate, value))
    {
      ghost var before := Store();
      WithHistoryConsistent(before, BatteryState, before.History(BatteryState) + [Entry(eventDate, value)]);
      batteryStates := batteryStates + [Entry(eventDate, value)];
      lastBatteryState := FindLastByMapKey(batteryStates);
      assert Store() == before.WithEntry(BatteryState, Entry(eventDate, value));
      var kept := CleanupMap(batteryStates, LIST_ITEM_LIMIT);
      assert kept == batteryStates;
      batteryStates := kept;
    }

    /** `addRfLinkLevel`: as `addBatteryLevel`, for the radio link level. */
    method AddRfLinkLevel(value: Value, eventDate: Time)
      requires Valid()
      modifies this`rfLinkLevels, this`lastRfLinkLevel
      ensures Valid()
      ensures Store() == old(Store()).WithEntry(RfLinkLevel, Entry(eventDate, value))
    {
      ghost var before := Store();
      WithHistoryConsistent(before, RfLinkLevel, before.History(RfLinkLevel) + [Entry(eventDate, value)]);
      rfLinkLevels := rfLinkLevels + [Entry(eventDate, value)];
      lastRfLinkLevel := FindLastByMapKey(rfLinkLevels);
      assert Store() == before.WithEntry(RfLinkLevel, Entry(eventDate, value));
      var kept := CleanupMap(rfLinkLevels, LIST_ITEM_LIMIT);
      assert kept == rfLinkLevels;
      rfLinkLevels := kept;
    }

    /** `addRfLinkState`: as `addBatteryLevel`, for the radio link state. */
    method AddRfLinkState(value: Value, eventDate: Time)
      requires Valid()
      modifies this`rfLinkStates, this`lastRfLinkState
      ensures Valid()
      ensures Store() == old(Store()).WithEntry(RfLinkState, Entry(eventDate, value))
    {
      ghost var before := Store();
      WithHistoryConsistent(before, RfLinkState, before.History(RfLinkState) + [Entry(eventDate, value)]);
      rfLinkStates := rfLinkStates + [Entry(eventDate, value)];
      lastRfLinkState := FindLastByMapKey(rfLinkStates);
      assert Store() == before.WithEntry(RfLinkState, Entry(eventDate, value));
      var kept := CleanupMap(rfLinkStates, LIST_ITEM_LIMIT);
      assert kept == rfLinkStates;
      rfLinkStates := kept;
    }

    /** `serialize()`: a record of this device's id from which `fromJson`
        rebuilds the device's state. */
    function Serialize(): (r: SerializedMower)
      reads this
      ensures r.id == id
      ensures Valid() ==> Restore(r) == View()
    {
      SerializeRestores(View());
      SerializeView(View())
    }
  }
}
