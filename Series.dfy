/** One time series of a device: its entries in insertion order (the iteration
    order of the JavaScript `Map`), the query that derives its current value
    and the retention cleanup that evicts its oldest entries. */
module Series {
  import opened Values

  /** Entry `i` has a maximal timestamp and no later entry shares it. */
  ghost predicate IsNewest(s: seq<Entry>, i: int) {
    && 0 <= i < |s|
    && (forall j :: 0 <= j < |s| ==> s[j].time <= s[i].time)
    && (forall j :: i < j < |s| ==> s[j].time < s[i].time)
  }

  /** Entry `i` has a minimal timestamp and no earlier entry shares it. */
  ghost predicate IsOldest(s: seq<Entry>, i: int) {
    && 0 <= i < |s|
    && (forall j :: 0 <= j < |s| ==> s[i].time <= s[j].time)
    && (forall j :: 0 <= j < i ==> s[i].time < s[j].time)
  }

  ghost predicate DistinctTimes(s: seq<Entry>) {
    forall i, j :: 0 <= i < j < |s| ==> s[i].time != s[j].time
  }

  /** Index of the most recent entry: the one that sorts first under the
      descending comparator; among equal timestamps the last inserted. */
  function NewestIndex(s: seq<Entry>): (k: nat)
    requires s != []
    ensures k < |s|
  {
    if |s| == 1 then 0
    else
      var k := NewestIndex(s[..|s| - 1]);
      if s[k].time <= s[|s| - 1].time then |s| - 1 else k
  }

  lemma {:induction false} NewestIndexIsNewest(s: seq<Entry>)
    requires s != []
    ensures IsNewest(s, NewestIndex(s))
  {
    if |s| > 1 {
      NewestIndexIsNewest(s[..|s| - 1]);
    }
  }

  /** Index of the oldest entry, the first to be evicted. */
  function OldestIndex(s: seq<Entry>): (k: nat)
    requires s != []
    ensures k < |s|
  {
    if |s| == 1 then 0
    else
      var k := OldestIndex(s[1..]);
      if s[0].time <= s[k + 1].time then 0 else k + 1
  }

  lemma {:induction false} OldestIndexIsOldest(s: seq<Entry>)
    requires s != []
    ensures IsOldest(s, OldestIndex(s))
  {
    if |s| > 1 {
      OldestIndexIsOldest(s[1..]);
      assert forall j :: 1 <= j < |s| ==> s[1..][j - 1] == s[j];
    }
  }

  lemma NewestIsUnique(s: seq<Entry>, i: int, j: int)
    requires IsNewest(s, i) && IsNewest(s, j)
    ensures i == j
  {
    assert s[i].time <= s[j].time && s[j].time <= s[i].time;
  }

  /** The entry that sorts first when the keys are sorted by descending
      timestamp, scanning in insertion order. */
  function Newest(s: seq<Entry>): Entry
    requires s != []
  {
    if |s| == 1 then s[0]
    else
      var e := Newest(s[..|s| - 1]);
      if e.time <= s[|s| - 1].time then s[|s| - 1] else e
  }

  lemma {:induction false} NewestAtNewestIndex(s: seq<Entry>)
    requires s != []
    ensures Newest(s) == s[NewestIndex(s)]
  {
    if |s| > 1 {
      NewestAtNewestIndex(s[..|s| - 1]);
    }
  }

  /** `_findLastByMapKey`: the value held at the greatest timestamp, `null`
      for an empty series. */
  function FindLastByMapKey(s: seq<Entry>): (r: Value)
    ensures s == [] ==> r == Null
  {
    if s == [] then Null else Newest(s).value
  }

  /** The current value of a non-empty series is the value of its unique
      newest entry. */
  lemma FindLastIsNewest(s: seq<Entry>, i: int)
    requires IsNewest(s, i)
    ensures FindLastByMapKey(s) == s[i].value
  {
    NewestAtNewestIndex(s);
    NewestIndexIsNewest(s);
    NewestIsUnique(s, i, NewestIndex(s));
  }

  /** The greatest timestamp of a non-empty series. */
  function MaxTime(s: seq<Entry>): (t: Time)
    requires s != []
    ensures forall j :: 0 <= j < |s| ==> s[j].time <= t
    ensures exists j :: 0 <= j < |s| && s[j].time == t
  {
    NewestAtNewestIndex(s);
    NewestIndexIsNewest(s);
    Newest(s).time
  }

  /** Appending an entry: it becomes the current one when no entry is more
      recent, otherwise the current value is left as it was. */
  lemma {:induction false} FindLastAfterAppend(s: seq<Entry>, e: Entry)
    ensures s == [] || MaxTime(s) <= e.time ==> FindLastByMapKey(s + [e]) == e.value
    ensures s != [] && e.time < MaxTime(s) ==> FindLastByMapKey(s + [e]) == FindLastByMapKey(s)
  {
    var t := s + [e];
    assert t[..|t| - 1] == s;
    NewestAtNewestIndex(t);
    NewestIndexIsNewest(t);
    if s != [] {
      NewestAtNewestIndex(s);
      NewestIndexIsNewest(s);
      NewestIsUnique(s, NewestIndex(s), NewestIndex(t[..|t| - 1]));
    }
  }

  /** The current value does not depend on the order in which entries were
      inserted, as long as no two entries share a timestamp. */
  lemma {:induction false} FindLastOrderIndependent(s: seq<Entry>, t: seq<Entry>)
    requires multiset(s) == multiset(t)
    requires DistinctTimes(s)
    ensures FindLastByMapKey(s) == FindLastByMapKey(t)
  {
    if s != [] {
      assert |t| == |multiset(t)| == |multiset(s)| == |s|;
      var i := NewestIndex(s);
      var k := NewestIndex(t);
      NewestAtNewestIndex(s);
      NewestAtNewestIndex(t);
      NewestIndexIsNewest(s);
      NewestIndexIsNewest(t);
      assert s[i] in multiset(t);
      var j :| 0 <= j < |t| && t[j] == s[i];
      assert t[k] in multiset(s);
      var l :| 0 <= l < |s| && s[l] == t[k];
      // t[j] and t[k] both carry the greatest time of the common entries
      assert s[l].time <= s[i].time;
      assert t[j].time <= t[k].time;
      assert s[l].time == s[i].time;
      assert l == i;
    }
  }

  /** `s` without its element at index `k`. */
  function RemoveAt(s: seq<Entry>, k: nat): (r: seq<Entry>)
    requires k < |s|
    ensures |r| == |s| - 1
  {
    s[..k] + s[k + 1..]
  }

  lemma RemoveAtIndex(s: seq<Entry>, k: nat, i: nat)
    requires k < |s| && i < |s| - 1
    ensures RemoveAt(s, k)[i] == if i < k then s[i] else s[i + 1]
  {
  }

  lemma RemoveAtMultiset(s: seq<Entry>, k: nat)
    requires k < |s|
    ensures multiset(RemoveAt(s, k)) + multiset{s[k]} == multiset(s)
  {
    assert s == s[..k] + [s[k]] + s[k + 1..];
  }

  /** The series after its `n` oldest entries are deleted, one at a time. */
  function Evict(s: seq<Entry>, n: nat): (r: seq<Entry>)
    requires n <= |s|
    ensures |r| == |s| - n
    decreases n
  {
    if n == 0 then s else Evict(RemoveAt(s, OldestIndex(s)), n - 1)
  }

  /** Retention limit of a series: JavaScript's `Infinity` or a count. */
  datatype Limit = Unbounded | AtMost(bound: nat)

  /** LIST_ITEM_LIMIT of src/Mower.js. */
  const LIST_ITEM_LIMIT: Limit := Unbounded

  /** The entries `Evict(s, n)` deletes, in the order it deletes them. */
  function Evicted(s: seq<Entry>, n: nat): (d: seq<Entry>)
    requires n <= |s|
    ensures |d| == n
    decreases n
  {
    if n == 0 then [] else [s[OldestIndex(s)]] + Evicted(RemoveAt(s, OldestIndex(s)), n - 1)
  }

  /** Eviction never brings in an entry older than the series' oldest. */
  lemma {:induction false} EvictBounded(s: seq<Entry>, n: nat, t: Time)
    requires n <= |s|
    requires forall i :: 0 <= i < |s| ==> t <= s[i].time
    ensures forall j :: 0 <= j < |Evict(s, n)| ==> t <= Evict(s, n)[j].time
    decreases n
  {
    if n > 0 {
      var k := OldestIndex(s);
      var r := RemoveAt(s, k);
      forall i | 0 <= i < |r| ensures t <= r[i].time {
        RemoveAtIndex(s, k, i);
      }
      EvictBounded(r, n - 1, t);
    }
  }

  /** Eviction of `n` entries splits the series into the `n` deleted entries
      and the kept ones. */
  lemma {:induction false} EvictPartition(s: seq<Entry>, n: nat)
    requires n <= |s|
    ensures multiset(Evicted(s, n)) + multiset(Evict(s, n)) == multiset(s)
    decreases n
  {
    if n > 0 {
      var k := OldestIndex(s);
      var r := RemoveAt(s, k);
      EvictPartition(r, n - 1);
      RemoveAtMultiset(s, k);
      var rest, kept := Evicted(r, n - 1), Evict(r, n - 1);
      calc {
        multiset(Evicted(s, n)) + multiset(Evict(s, n));
        { assert Evicted(s, n) == [s[k]] + rest; }
        multiset([s[k]] + rest) + multiset(kept);
        multiset{s[k]} + (multiset(rest) + multiset(kept));
        multiset{s[k]} + multiset(r);
        multiset(s);
      }
    }
  }

  /** No entry that eviction deletes is more recent than one it keeps. */
  lemma {:induction false} EvictKeepsNewest(s: seq<Entry>, n: nat)
    requires n <= |s|
    ensures forall i, j :: 0 <= i < n && 0 <= j < |Evict(s, n)| ==> Evicted(s, n)[i].time <= Evict(s, n)[j].time
    decreases n
  {
    if n > 0 {
      var k := OldestIndex(s);
      var r := RemoveAt(s, k);
      EvictKeepsNewest(r, n - 1);
      OldestIndexIsOldest(s);
      forall i | 0 <= i < |r| ensures s[k].time <= r[i].time {
        RemoveAtIndex(s, k, i);
      }
      EvictBounded(r, n - 1, s[k].time);
      var kept, dropped, rest := Evict(s, n), Evicted(s, n), Evicted(r, n - 1);
      assert kept == Evict(r, n - 1);
      assert dropped == [s[k]] + rest;
      forall i, j | 0 <= i < n && 0 <= j < |kept| ensures dropped[i].time <= kept[j].time {
        if i > 0 {
          assert dropped[i] == rest[i - 1];
        }
      }
    }
  }

  /** Removing the oldest entry of a series of two or more entries keeps its
      current value. */
  lemma {:induction false} RemoveOldestKeepsCurrent(s: seq<Entry>)
    requires |s| >= 2
    ensures FindLastByMapKey(RemoveAt(s, OldestIndex(s))) == FindLastByMapKey(s)
  {
    var k := OldestIndex(s);
    var i := NewestIndex(s);
    var r := RemoveAt(s, k);
    OldestIndexIsOldest(s);
    NewestIndexIsNewest(s);
    // the oldest and the newest entry differ: an earlier entry is older than
    // the oldest one's successor only if all timestamps are equal
    if k != 0 {
      assert s[0].time > s[k].time && s[0].time <= s[i].time;
    } else {
      assert s[0].time <= s[1].time;
    }
    assert k != i;
    var i' := if i < k then i else i - 1;
    RemoveAtIndex(s, k, i');
    forall j | 0 <= j < |r| ensures r[j].time <= r[i'].time {
      RemoveAtIndex(s, k, j);
    }
    forall j | i' < j < |r| ensures r[j].time < r[i'].time {
      RemoveAtIndex(s, k, j);
    }
    FindLastIsNewest(r, i');
    FindLastIsNewest(s, i);
  }

  /** Cleanup never changes the current value while one entry survives. */
  lemma {:induction false} EvictKeepsCurrent(s: seq<Entry>, n: nat)
    requires n < |s|
    ensures FindLastByMapKey(Evict(s, n)) == FindLastByMapKey(s)
    decreases n
  {
    if n > 0 {
      RemoveOldestKeepsCurrent(s);
      EvictKeepsCurrent(RemoveAt(s, OldestIndex(s)), n - 1);
    }
  }

  /** `_cleanupMap`: nothing happens while the series fits the limit;
      otherwise the `size - limit` oldest entries are deleted. */
  method CleanupMap(entries: seq<Entry>, limit: Limit) returns (kept: seq<Entry>)
    ensures limit.Unbounded? || |entries| <= limit.bound ==> kept == entries
    ensures limit.AtMost? && |entries| > limit.bound ==>
      |kept| == limit.bound && kept == Evict(entries, |entries| - limit.bound)
  {
    if limit.Unbounded? || |entries| <= limit.bound {
      return entries;
    }
    var excess: nat := |entries| - limit.bound;
    kept := entries;
    while excess > 0
      invariant excess <= |kept| == limit.bound + excess
      invariant Evict(kept, excess) == Evict(entries, |entries| - limit.bound)
    {
      kept := RemoveAt(kept, OldestIndex(kept));
      excess := excess - 1;
    }
  }
}
