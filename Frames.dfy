/** The messages of the realtime stream as the frame handlers see them: the
    `type` tag and its case-insensitive classification, and the attribute
    record whose present fields become setter and `add*` calls on a device. */
module Frames {
  import opened Values
  import opened Series
  import opened MowerStore

  /** A `{ value, timestamp }` attribute. */
  datatype Stamped = Stamped(value: Value, timestamp: Time)

  /** The `rfLinkState` attribute, whose timestamp may be absent: `None`
      stands for every falsy raw timestamp (absent, `null`, `""`, `0`), and
      `Some(t)` for a truthy one, whose `Date` has the value `t` (which is
      `0` for an ISO string of the epoch). */
  datatype RfLinkReport = RfLinkReport(value: Value, timestamp: Option<Time>)

  /** The `attributes` object of a frame: `None` for a property the frame
      does not have. */
  datatype Attributes = Attributes(
    name: Option<Value>, serial: Option<Value>, modelType: Option<Value>,
    batteryLevel: Option<Stamped>, batteryState: Option<Stamped>,
    rfLinkLevel: Option<Stamped>, rfLinkState: Option<RfLinkReport>,
    state: Option<Stamped>, activity: Option<Stamped>, lastErrorCode: Option<Stamped>,
    operatingHours: Option<Value>)

  /** One message of the stream. */
  datatype Frame = Frame(id: string, kind: string, attributes: Option<Attributes>)

  /** The handler a frame is dispatched to. */
  datatype FrameKind = LocationFrame | DeviceFrame | CommonFrame | MowerFrame | Unknown

  function UpperChar(c: char): char {
    if 'a' <= c <= 'z' then (c as int - 32) as char else c
  }

  function LowerChar(c: char): char {
    if 'A' <= c <= 'Z' then (c as int + 32) as char else c
  }

  /** `toLowerCase()`. */
  function Lower(s: string): string {
    seq(|s|, i requires 0 <= i < |s| => LowerChar(s[i]))
  }

  /** `type.charAt(0).toUpperCase() + type.slice(1).toLowerCase()`: the
      same length, and never a lower-case letter first. */
  function Normalize(t: string): (r: string)
    ensures |r| == |t|
    ensures r != [] ==> !('a' <= r[0] <= 'z')
  {
    if t == [] then [] else [UpperChar(t[0])] + Lower(t[1..])
  }

  /** The `_handle<Type>` method the normalised type names, if there is one. */
  function Classify(t: string): (r: FrameKind)
    ensures r != Unknown ==> Normalize(t) == HandlerName(r)
  {
    var n := Normalize(t);
    if n == "Location" then LocationFrame
    else if n == "Device" then DeviceFrame
    else if n == "Common" then CommonFrame
    else if n == "Mower" then MowerFrame
    else Unknown
  }

  /** The lower-case spelling of a handler's type. */
  function KindName(k: FrameKind): string {
    match k
    case LocationFrame => "location"
    case DeviceFrame => "device"
    case CommonFrame => "common"
    case MowerFrame => "mower"
    case Unknown => ""
  }

  /** Normalisation sees a type only through its lower-case spelling. */
  lemma NormalizeLower(t: string)
    ensures Normalize(t) == Normalize(Lower(t))
    ensures Lower(Normalize(t)) == Lower(t)
  {
  }

  /** Normalising twice is normalising once. */
  lemma NormalizeIdempotent(t: string)
    ensures Normalize(Normalize(t)) == Normalize(t)
  {
    if t != [] {
      var n := Normalize(t);
      assert n[1..] == Lower(t[1..]);
    }
  }

  /** The normalised spelling of a handler's type. */
  function HandlerName(k: FrameKind): string {
    match k
    case LocationFrame => "Location"
    case DeviceFrame => "Device"
    case CommonFrame => "Common"
    case MowerFrame => "Mower"
    case Unknown => ""
  }

  /** The lower-case and the normalised spelling of a handler's type convert
      into each other. */
  lemma HandlerNames(k: FrameKind)
    ensures Normalize(KindName(k)) == HandlerName(k) && Lower(HandlerName(k)) == KindName(k)
  {
  }

  /** A frame goes to a handler exactly when its type, ignoring case, is that
      handler's name: "COMMON", "common" and "Common" all reach `_handleCommon`. */
  lemma ClassifyIff(t: string, k: FrameKind)
    requires k != Unknown
    ensures Classify(t) == k <==> Lower(t) == KindName(k)
  {
    NormalizeLower(t);
    HandlerNames(k);
    var n := Normalize(t);
    match k {
      case LocationFrame =>
        assert Classify(t) == LocationFrame <==> n == "Location";
      case DeviceFrame =>
        assert Classify(t) == DeviceFrame <==> n == "Device";
      case CommonFrame =>
        assert Classify(t) == CommonFrame <==> n == "Common";
      case MowerFrame =>
        assert Classify(t) == MowerFrame <==> n == "Mower";
    }
  }

  /** Dispatch is case-insensitive. */
  lemma ClassifyIgnoresCase(t: string, u: string)
    requires Lower(t) == Lower(u)
    ensures Classify(t) == Classify(u)
  {
    NormalizeLower(t);
    NormalizeLower(u);
  }

  /** The time an `rfLinkState` entry is recorded at: a falsy timestamp means
      the time of arrival. */
  function RfLinkTime(timestamp: Option<Time>, now: Time): (t: Time)
    ensures timestamp.None? ==> t == now
    ensures timestamp.Some? ==> Some(t) == timestamp
  {
    if timestamp.None? then now else timestamp.value
  }

  /** The entries a `{ value, timestamp }` attribute contributes to its
      series: one when the frame has it, none otherwise. */
  function Stamps(attribute: Option<Stamped>): seq<Entry> {
    if attribute.Some? then [Entry(attribute.value.timestamp, attribute.value.value)] else []
  }

  /** The entries an `rfLinkState` attribute contributes. */
  function RfLinkStamps(attribute: Option<RfLinkReport>, now: Time): seq<Entry> {
    if attribute.Some? then [Entry(RfLinkTime(attribute.value.timestamp, now), attribute.value.value)] else []
  }

  /** An attribute after a setter that runs only when the frame has a value. */
  function Overwrite(attribute: Option<Value>, current: Value): Value {
    if attribute.Some? then attribute.value else current
  }

  /** The series of a device after `_handleCommon`: battery level, battery
      state, radio link level and radio link state, in that order. */
  function CommonStore(st: SeriesStore, a: Attributes, now: Time): SeriesStore {
    st.WithEntries(BatteryLevel, Stamps(a.batteryLevel))
      .WithEntries(BatteryState, Stamps(a.batteryState))
      .WithEntries(RfLinkLevel, Stamps(a.rfLinkLevel))
      .WithEntries(RfLinkState, RfLinkStamps(a.rfLinkState, now))
  }

  /** The series of a device after `_handleMower`: state, activity, error. */
  function MowerFrameStore(st: SeriesStore, a: Attributes): SeriesStore {
    st.WithEntries(State, Stamps(a.state))
      .WithEntries(Activity, Stamps(a.activity))
      .WithEntries(Error, Stamps(a.lastErrorCode))
  }

  /** The change events of recording the (at most one) entry `es` into `s`. */
  function ChangesOf(st: SeriesStore, s: SeriesName, es: seq<Entry>): seq<Change> {
    if es == [] then [] else st.ChangeOn(s, es[0])
  }

  /** The change events `_handleMower` raises, in the order it raises them. */
  function MowerFrameChanges(st: SeriesStore, a: Attributes): seq<Change> {
    var afterState := st.WithEntries(State, Stamps(a.state));
    var afterActivity := afterState.WithEntries(Activity, Stamps(a.activity));
    ChangesOf(st, State, Stamps(a.state))
      + ChangesOf(afterState, Activity, Stamps(a.activity))
      + ChangesOf(afterActivity, Error, Stamps(a.lastErrorCode))
  }

  /** The event a notifying series raises over a whole frame: one carrying the
      new current value when it differs from the old one. */
  function Notified(before: SeriesStore, after: SeriesStore, s: SeriesName): seq<Change>
    requires s.ChangeKind().Some?
  {
    if after.Current(s) != before.Current(s) then [Change(s.ChangeKind().value, after.Current(s))] else []
  }

  /** Recording at most one entry into one series: the other series are
      untouched and the store stays consistent. */
  lemma RecordOne(st: SeriesStore, s: SeriesName, es: seq<Entry>)
    requires st.Consistent() && |es| <= 1
    ensures st.WithEntries(s, es).Consistent()
    ensures st.WithEntries(s, es).History(s) == st.History(s) + es
    ensures forall t :: t != s ==> st.WithEntries(s, es).History(t) == st.History(t)
    ensures forall t :: t != s ==> st.WithEntries(s, es).Current(t) == st.Current(t)
    ensures ChangesOf(st, s, es) == (if s.ChangeKind().Some? then Notified(st, st.WithEntries(s, es), s) else [])
  {
    if es == [] {
      WithEntriesNone(st, s);
    } else {
      assert es == [es[0]];
      WithEntryCurrent(st, s, es[0]);
      ChangeOnExactly(st, s, es[0]);
    }
  }

  /** A Common frame appends what it carries to the battery and radio link
      series, in that order, and never touches state, activity or error. */
  lemma CommonStoreEffect(st: SeriesStore, a: Attributes, now: Time)
    requires st.Consistent()
    ensures var w := CommonStore(st, a, now);
      && w.Consistent()
      && w.History(BatteryLevel) == st.History(BatteryLevel) + Stamps(a.batteryLevel)
      && w.History(BatteryState) == st.History(BatteryState) + Stamps(a.batteryState)
      && w.History(RfLinkLevel) == st.History(RfLinkLevel) + Stamps(a.rfLinkLevel)
      && w.History(RfLinkState) == st.History(RfLinkState) + RfLinkStamps(a.rfLinkState, now)
      && forall t: SeriesName :: t.ChangeKind().Some? ==> w.History(t) == st.History(t) && w.Current(t) == st.Current(t)
  {
    var bl := st.batteryLevels + Stamps(a.batteryLevel);
    var bs := st.batteryStates + Stamps(a.batteryState);
    var rl := st.rfLinkLevels + Stamps(a.rfLinkLevel);
    var rs := st.rfLinkStates + RfLinkStamps(a.rfLinkState, now);
    var w := st.(batteryLevels := bl, lastBatteryLevel := FindLastByMapKey(bl),
                 batteryStates := bs, lastBatteryState := FindLastByMapKey(bs),
                 rfLinkLevels := rl, lastRfLinkLevel := FindLastByMapKey(rl),
                 rfLinkStates := rs, lastRfLinkState := FindLastByMapKey(rs));
    assert CommonStore(st, a, now) == w;
    forall t: SeriesName ensures w.Current(t) == FindLastByMapKey(w.History(t)) {
      assert st.Current(t) == FindLastByMapKey(st.History(t));
    }
  }

  /** A Mower frame appends what it carries to the state, activity and error
      series and never touches the battery or radio link series. */
  lemma MowerFrameStoreEffect(st: SeriesStore, a: Attributes)
    requires st.Consistent()
    ensures var w := MowerFrameStore(st, a);
      && w.Consistent()
      && w.History(State) == st.History(State) + Stamps(a.state)
      && w.History(Activity) == st.History(Activity) + Stamps(a.activity)
      && w.History(Error) == st.History(Error) + Stamps(a.lastErrorCode)
      && forall t: SeriesName :: t.ChangeKind().None? ==> w.History(t) == st.History(t) && w.Current(t) == st.Current(t)
  {
    var s1 := st.WithEntries(State, Stamps(a.state));
    var s2 := s1.WithEntries(Activity, Stamps(a.activity));
    RecordOne(st, State, Stamps(a.state));
    RecordOne(s1, Activity, Stamps(a.activity));
    RecordOne(s2, Error, Stamps(a.lastErrorCode));
  }

  /** A Mower frame raises one change event for each of state, activity and
      error whose current value it changed, in that order, each carrying the
      new current value; nothing else. */
  lemma MowerFrameChangesExactly(st: SeriesStore, a: Attributes)
    requires st.Consistent()
    ensures var w := MowerFrameStore(st, a);
      MowerFrameChanges(st, a) == Notified(st, w, State) + Notified(st, w, Activity) + Notified(st, w, Error)
  {
    var s1 := st.WithEntries(State, Stamps(a.state));
    var s2 := s1.WithEntries(Activity, Stamps(a.activity));
    var w := s2.WithEntries(Error, Stamps(a.lastErrorCode));
    RecordOne(st, State, Stamps(a.state));
    RecordOne(s1, Activity, Stamps(a.activity));
    RecordOne(s2, Error, Stamps(a.lastErrorCode));
    // each series keeps its value through the steps that record the others
    assert w.Current(State) == s1.Current(State) && s1.Current(Activity) == st.Current(Activity);
    assert w.Current(Activity) == s2.Current(Activity) && s2.Current(Error) == st.Current(Error);
    assert ChangesOf(st, State, Stamps(a.state)) == Notified(st, w, State);
    assert ChangesOf(s1, Activity, Stamps(a.activity)) == Notified(st, w, Activity);
    assert ChangesOf(s2, Error, Stamps(a.lastErrorCode)) == Notified(st, w, Error);
  }

  /** A device after `_handleCommon` applied `a`: the present name, serial
      and model type overwrite the attributes, and the battery and radio link
      readings are recorded. */
  function CommonView(v: MowerView, a: Attributes, now: Time): MowerView {
    v.(name := Overwrite(a.name, v.name),
       serial := Overwrite(a.serial, v.serial),
       modelType := Overwrite(a.modelType, v.modelType),
       store := CommonStore(v.store, a, now))
  }

  /** A device after `_handleMower` applied `a`. */
  function MowerFrameView(v: MowerView, a: Attributes): MowerView {
    v.(operatingHours := Overwrite(a.operatingHours, v.operatingHours),
       store := MowerFrameStore(v.store, a))
  }

  /** The field mapping of `_handleCommon`: each present attribute, in
      source order, through its setter or `add*` method. */
  method ApplyCommon(m: Mower, a: Attributes, now: Time)
    requires m.Valid()
    modifies m`name, m`serial, m`modelType
    modifies m`batteryLevels, m`lastBatteryLevel, m`batteryStates, m`lastBatteryState
    modifies m`rfLinkLevels, m`lastRfLinkLevel, m`rfLinkStates, m`lastRfLinkState
    ensures m.Valid() && m.View() == CommonView(old(m.View()), a, now)
  {
    ghost var v := m.View();
    if a.name.Some? {
      m.SetName(a.name.value);
    }
    if a.serial.Some? {
      m.SetSerial(a.serial.value);
    }
    if a.modelType.Some? {
      m.SetModelType(a.modelType.value);
    }
    assert m.View() == v.(name := Overwrite(a.name, v.name), serial := Overwrite(a.serial, v.serial),
                          modelType := Overwrite(a.modelType, v.modelType));
    RecordReadings(m, a, now);
  }

  /** The `add*` calls of `_handleCommon`. */
  method RecordReadings(m: Mower, a: Attributes, now: Time)
    requires m.Valid()
    modifies m`batteryLevels, m`lastBatteryLevel, m`batteryStates, m`lastBatteryState
    modifies m`rfLinkLevels, m`lastRfLinkLevel, m`rfLinkStates, m`lastRfLinkState
    ensures m.Valid() && m.Store() == CommonStore(old(m.Store()), a, now)
  {
    ghost var st := m.Store();
    ghost var s1 := st.WithEntries(BatteryLevel, Stamps(a.batteryLevel));
    ghost var s2 := s1.WithEntries(BatteryState, Stamps(a.batteryState));
    ghost var s3 := s2.WithEntries(RfLinkLevel, Stamps(a.rfLinkLevel));
    RecordOne(st, BatteryLevel, Stamps(a.batteryLevel));
    if a.batteryLevel.Some? {
      m.AddBatteryLevel(a.batteryLevel.value.value, a.batteryLevel.value.timestamp);
    } else {
      WithEntriesNone(st, BatteryLevel);
    }
    assert m.Store() == s1;
    RecordOne(s1, BatteryState, Stamps(a.batteryState));
    if a.batteryState.Some? {
      m.AddBatteryState(a.batteryState.value.value, a.batteryState.value.timestamp);
    } else {
      WithEntriesNone(s1, BatteryState);
    }
    assert m.Store() == s2;
    RecordOne(s2, RfLinkLevel, Stamps(a.rfLinkLevel));
    if a.rfLinkLevel.Some? {
      m.AddRfLinkLevel(a.rfLinkLevel.value.value, a.rfLinkLevel.value.timestamp);
    } else {
      WithEntriesNone(s2, RfLinkLevel);
    }
    assert m.Store() == s3;
    if a.rfLinkState.Some? {
      m.AddRfLinkState(a.rfLinkState.value.value, RfLinkTime(a.rfLinkState.value.timestamp, now));
    } else {
      WithEntriesNone(s3, RfLinkState);
    }
  }

  /** The field mapping of `_handleMower`: state, activity and error are
      recorded in that order, so their change events are published in that
      order, and a present operating-hours value overwrites the attribute. */
  method ApplyMower(m: Mower, a: Attributes)
    requires m.Valid()
    modifies m`states, m`lastState, m`activities, m`lastActivity, m`errors, m`lastError
    modifies m`operatingHours, m`published, m.listeners
    ensures m.Valid() && m.View() == MowerFrameView(old(m.View()), a)
    ensures var changes := MowerFrameChanges(old(m.Store()), a);
      && m.published == old(m.published) + Gated(m.disableEmitter, changes)
      && forall l :: l in m.listeners ==>
           l.emitted == old(l.emitted) + Gated(m.disableEmitter, Deliveries(changes, Count(m.listeners, l)))
  {
    ghost var v := m.View();
    RecordStatus(m, a);
    assert m.View() == v.(store := MowerFrameStore(v.store, a));
    if a.operatingHours.Some? {
      m.SetOperatingHours(a.operatingHours.value);
    }
  }

  /** The `add*` calls of `_handleMower`. */
  method RecordStatus(m: Mower, a: Attributes)
    requires m.Valid()
    modifies m`states, m`lastState, m`activities, m`lastActivity, m`errors, m`lastError
    modifies m`published, m.listeners
    ensures m.Valid() && m.Store() == MowerFrameStore(old(m.Store()), a)
    ensures var changes := MowerFrameChanges(old(m.Store()), a);
      && m.published == old(m.published) + Gated(m.disableEmitter, changes)
      && forall l :: l in m.listeners ==>
           l.emitted == old(l.emitted) + Gated(m.disableEmitter, Deliveries(changes, Count(m.listeners, l)))
  {
    ghost var st := m.Store();
    ghost var s1 := st.WithEntries(State, Stamps(a.state));
    ghost var s2 := s1.WithEntries(Activity, Stamps(a.activity));
    ghost var c1 := ChangesOf(st, State, Stamps(a.state));
    ghost var c2 := ChangesOf(s1, Activity, Stamps(a.activity));
    ghost var c3 := ChangesOf(s2, Error, Stamps(a.lastErrorCode));
    ghost var off := m.disableEmitter;
    ghost var p0 := m.published;
    RecordNotifying(m, State, Stamps(a.state));
    label AfterState:
    ghost var p1 := m.published;
    assert m.Store() == s1;
    RecordNotifying(m, Activity, Stamps(a.activity));
    label AfterActivity:
    ghost var p2 := m.published;
    assert m.Store() == s2;
    RecordNotifying(m, Error, Stamps(a.lastErrorCode));
    GatedChain(off, c1, c2, c3, p0, p1, p2, m.published);
    forall l | l in m.listeners
      ensures l.emitted == old(l.emitted) + Gated(off, Deliveries(c1 + c2 + c3, Count(m.listeners, l)))
    {
      var n := Count(m.listeners, l);
      DeliveriesAppend(c1, c2, n);
      DeliveriesAppend(c1 + c2, c3, n);
      GatedChain(off, Deliveries(c1, n), Deliveries(c2, n), Deliveries(c3, n),
                 old(l.emitted), old@AfterState(l.emitted), old@AfterActivity(l.emitted), l.emitted);
    }
    assert MowerFrameChanges(st, a) == c1 + c2 + c3;
  }

  /** Three gated batches in a row pass the gate as one batch. */
  lemma GatedChain<T>(off: bool, c1: seq<T>, c2: seq<T>, c3: seq<T>, p0: seq<T>, p1: seq<T>, p2: seq<T>, p3: seq<T>)
    requires p1 == p0 + Gated(off, c1) && p2 == p1 + Gated(off, c2) && p3 == p2 + Gated(off, c3)
    ensures p3 == p0 + Gated(off, c1 + c2 + c3)
  {
    GatedAppend(off, c1, c2);
    GatedAppend(off, c1 + c2, c3);
  }

  /** One `add*` call of `_handleMower`, made when the frame carries that
      attribute. */
  method RecordNotifying(m: Mower, s: SeriesName, es: seq<Entry>)
    requires m.Valid() && |es| <= 1 && s.ChangeKind().Some?
    modifies m`states, m`lastState, m`activities, m`lastActivity, m`errors, m`lastError
    modifies m`published, m.listeners
    ensures m.Valid() && m.Store() == old(m.Store()).WithEntries(s, es)
    ensures var changes := ChangesOf(old(m.Store()), s, es);
      && m.published == old(m.published) + Gated(m.disableEmitter, changes)
      && forall l :: l in m.listeners ==>
           l.emitted == old(l.emitted) + Gated(m.disableEmitter, Deliveries(changes, Count(m.listeners, l)))
  {
    if es == [] {
      WithEntriesNone(m.Store(), s);
    } else {
      assert es == [es[0]];
      match s {
        case State => m.AddState(es[0].value, es[0].time);
        case Activity => m.AddActivity(es[0].value, es[0].time);
        case Error => m.AddError(es[0].value, es[0].time);
      }
    }
  }

  /** How the message handler finishes with a frame: a `_handle<Type>`
      method ran, the generic branch logged it, or the handler threw. */
  datatype Outcome = Handled | Generic | Thrown

  /** A Common or Mower frame needs its `attributes`. */
  predicate NeedsAttributes(k: FrameKind) {
    k == CommonFrame || k == MowerFrame
  }

  function OutcomeOf(f: Frame): Outcome {
    var k := Classify(f.kind);
    if k == Unknown then Generic
    else if NeedsAttributes(k) && f.attributes.None? then Thrown
    else Handled
  }

  /** The addressed device after a frame. */
  function FrameView(v: MowerView, f: Frame, now: Time): MowerView {
    match Classify(f.kind)
    case CommonFrame => if f.attributes.Some? then CommonView(v, f.attributes.value, now) else v
    case MowerFrame => if f.attributes.Some? then MowerFrameView(v, f.attributes.value) else v
    case _ => v
  }

  /** The change events the addressed device raises for a frame. */
  function FrameChanges(v: MowerView, f: Frame): seq<Change> {
    if Classify(f.kind) == MowerFrame && f.attributes.Some? then MowerFrameChanges(v.store, f.attributes.value) else []
  }

  /** What a frame does to its device, by outcome: a frame that throws or
      is not a Common or Mower frame changes nothing and raises nothing; a
      Common frame raises nothing and leaves state, activity and error
      alone; a Mower frame raises one event per changed state, activity or
      error, in that order, and leaves the rest of the device alone. */
  lemma FrameEffect(v: MowerView, f: Frame, now: Time)
    requires v.store.Consistent()
    ensures FrameView(v, f, now).store.Consistent()
    ensures FrameView(v, f, now).id == v.id
    ensures OutcomeOf(f) != Handled || !NeedsAttributes(Classify(f.kind)) ==>
      FrameView(v, f, now) == v && FrameChanges(v, f) == []
    ensures Classify(f.kind) == CommonFrame ==>
      FrameChanges(v, f) == [] && FrameView(v, f, now).operatingHours == v.operatingHours
      && forall t: SeriesName :: t.ChangeKind().Some? ==>
           FrameView(v, f, now).store.History(t) == v.store.History(t) && FrameView(v, f, now).store.Current(t) == v.store.Current(t)
    ensures Classify(f.kind) == MowerFrame ==>
      var w := FrameView(v, f, now);
      && w.name == v.name && w.serial == v.serial && w.modelType == v.modelType
      && FrameChanges(v, f) == Notified(v.store, w.store, State) + Notified(v.store, w.store, Activity) + Notified(v.store, w.store, Error)
      && forall t: SeriesName :: t.ChangeKind().None? ==>
           w.store.History(t) == v.store.History(t) && w.store.Current(t) == v.store.Current(t)
  {
    if f.attributes.Some? {
      var a := f.attributes.value;
      match Classify(f.kind) {
        case CommonFrame =>
          CommonStoreEffect(v.store, a, now);
        case MowerFrame =>
          MowerFrameStoreEffect(v.store, a);
          MowerFrameChangesExactly(v.store, a);
        case _ =>
      }
    }
  }
}
