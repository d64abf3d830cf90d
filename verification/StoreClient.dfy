/** The browser's cache of key versions, which must agree with the store after
    a page has subscribed, hydrated and followed the change stream. */
module StoreClient {
  import opened Store

  datatype Cache = Cache(versions: map<string, nat>, seqNo: nat)

  function Max(a: nat, b: nat): nat { if a >= b then a else b }

  /** What the page does with one event. */
  function Apply(c: Cache, e: Event, isDelta: bool): Cache {
    if isDelta && e.seqNo <= c.seqNo then c
    else
      Cache(if e.deleted then c.versions - {e.key} else c.versions[e.key := e.version], Max(c.seqNo, e.seqNo))
  }

  class Client {
    var storeVersions: map<string, nat>
    var storeSeq: nat

    function View(): Cache
      reads this
    {
      Cache(storeVersions, storeSeq)
    }

    constructor ()
      ensures View() == Cache(map[], 0)
    {
      storeVersions, storeSeq := map[], 0;
    }

    method ApplyStore(e: Event, isDelta: bool)
      modifies this
      ensures View() == Apply(old(View()), e, isDelta)
    {
      if isDelta && e.seqNo <= storeSeq {
        return;
      }
      storeSeq := Max(storeSeq, e.seqNo);
      if e.deleted {
        storeVersions := storeVersions - {e.key};
      } else {
        storeVersions := storeVersions[e.key := e.version];
      }
    }
  }

  function Hydrate(c: Cache, events: seq<Event>): Cache {
    if |events| == 0 then c else Apply(Hydrate(c, events[..|events| - 1]), events[|events| - 1], false)
  }

  /** The change events numbered lo+1, ..., hi, in order. */
  function Follow(c: Cache, log: seq<Op>, lo: nat, hi: nat): Cache
    requires hi <= |log|
    decreases hi
  {
    if hi <= lo then c else Apply(Follow(c, log, lo, hi - 1), EventOf(log, hi), true)
  }

  function VersionsOf(data: map<string, Entry>): map<string, nat> {
    map k | k in data :: data[k].version
  }

  // ------------------------------------------------------------------- hydration

  /** Hydrating gives a key that has an event the version in it, and leaves any
      other key alone. */
  lemma {:induction false} HydrateEffect(c: Cache, events: seq<Event>, data: map<string, Entry>, k: string)
    requires forall e :: e in events ==> Restates(e, data)
    ensures var h := Hydrate(c, events);
      && (Covers(events, k) ==> k in data && k in h.versions && h.versions[k] == data[k].version)
      && (!Covers(events, k) ==>
            (k in h.versions <==> k in c.versions) && (k in h.versions ==> h.versions[k] == c.versions[k]))
  {
    if |events| > 0 {
      var before, last := events[..|events| - 1], events[|events| - 1];
      assert forall e :: e in events <==> e in before || e == last;
      assert last in events && Restates(last, data);
      HydrateEffect(c, before, data, k);
      assert Covers(before, k) ==> Covers(events, k);
    }
  }

  /** Hydrating raises the mark to the largest version in the snapshot. */
  lemma {:induction false} HydrateMark(c: Cache, events: seq<Event>, data: map<string, Entry>)
    requires forall e :: e in events ==> Restates(e, data)
    ensures var h := Hydrate(c, events);
      c.seqNo <= h.seqNo && (h.seqNo == c.seqNo || exists e :: e in events && e.version == h.seqNo)
  {
    if |events| > 0 {
      var before, last := events[..|events| - 1], events[|events| - 1];
      assert forall e :: e in events <==> e in before || e == last;
      assert last in events && Restates(last, data);
      HydrateMark(c, before, data);
    }
  }

  /** Following the stream gives each key touched after both marks its latest
      state, and leaves the other keys alone. */
  lemma {:induction false} FollowEffect(c: Cache, log: seq<Op>, lo: nat, hi: nat, k: string)
    requires hi <= |log|
    ensures var r, q := Follow(c, log, lo, hi), LastTouch(log, hi, k);
      && r.seqNo == (if hi > lo then Max(c.seqNo, hi) else c.seqNo)
      && (q > Max(lo, c.seqNo) ==>
            (k in r.versions <==> log[q - 1].Put?) && (k in r.versions ==> r.versions[k] == q))
      && (q <= Max(lo, c.seqNo) ==>
            (k in r.versions <==> k in c.versions) && (k in r.versions ==> r.versions[k] == c.versions[k]))
    decreases hi
  {
    if hi > lo {
      FollowEffect(c, log, lo, hi - 1, k);
    }
  }

  // ------------------------------------------------------------------- agreement

  /** A page that keeps the cache c subscribes at operation s0, receives the
      snapshot taken at n0, then the changes up to n. */
  function Connect(c: Cache, log: seq<Op>, s0: nat, snapshot: seq<Event>, n: nat): Cache
    requires n <= |log|
  {
    Follow(Hydrate(c, snapshot), log, s0, n)
  }

  /** The page takes no notice of the last operation on a key: it came before the
      subscription, or is no newer than the mark the page has after hydrating. */
  predicate Unheard(c: Cache, log: seq<Op>, s0: nat, snapshot: seq<Event>, n: nat, k: string)
    requires n <= |log|
  {
    LastTouch(log, n, k) <= Max(s0, Hydrate(c, snapshot).seqNo)
  }

  /** Unheard, and hydration does not make up for it.  An operation the snapshot
      covers is made up for, unless it removed a key that the page kept; of a
      later one the page has neither the version nor the removal, unless its old
      cache happens to say the same. */
  ghost predicate Missed(c: Cache, log: seq<Op>, s0: nat, n0: nat, snapshot: seq<Event>, n: nat, k: string)
    requires n0 <= n <= |log|
  {
    var q, data, now := LastTouch(log, n, k), StateAt(log[..n0]), StateAt(log[..n]);
    && Unheard(c, log, s0, snapshot, n, k)
    && if q <= n0 then k in c.versions && k !in now
       else if k in now then k in data || k !in c.versions || c.versions[k] != q
       else k in data || k in c.versions
  }

  /** Key by key: the page agrees with the store at n on every key it did not
      miss, and is wrong on every other. */
  lemma AgreesOnKey(c: Cache, log: seq<Op>, s0: nat, n0: nat, n: nat, snapshot: seq<Event>, k: string)
    requires s0 <= n0 <= n <= |log|
    requires IsSnapshot(snapshot, StateAt(log[..n0]))
    ensures var r, m := Connect(c, log, s0, snapshot, n), StateAt(log[..n]);
      Missed(c, log, s0, n0, snapshot, n, k)
      <==> !((k in r.versions <==> k in m) && (k in m ==> r.versions[k] == m[k].version))
  {
    var data := StateAt(log[..n0]);
    var h := Hydrate(c, snapshot);
    HydrateEffect(c, snapshot, data, k);
    FollowEffect(h, log, s0, n, k);
    StateByLastTouch(log, n, k);
    StateByLastTouch(log, n0, k);
    TouchedSince(log, n0, n, k);
    assert Covers(snapshot, k) <==> k in data;
    hide StateAt, LastTouch, Hydrate, Follow, IsSnapshot, Covers;
  }

  /** The exact condition for a page to agree: fresh or reconnecting, to the same
      store or to one that has started over since. */
  lemma AgreesUnlessMissed(c: Cache, log: seq<Op>, s0: nat, n0: nat, n: nat, snapshot: seq<Event>)
    requires s0 <= n0 <= n <= |log|
    requires IsSnapshot(snapshot, StateAt(log[..n0]))
    ensures Connect(c, log, s0, snapshot, n).versions == VersionsOf(StateAt(log[..n]))
      <==> forall k :: !Missed(c, log, s0, n0, snapshot, n, k)
  {
    var r, m := Connect(c, log, s0, snapshot, n), StateAt(log[..n]);
    forall k ensures Missed(c, log, s0, n0, snapshot, n, k)
      <==> !((k in r.versions <==> k in m) && (k in m ==> r.versions[k] == m[k].version))
    {
      AgreesOnKey(c, log, s0, n0, n, snapshot, k);
    }
    hide Missed, StateAt, Connect;
    if forall k :: !Missed(c, log, s0, n0, snapshot, n, k) {
      forall k ensures k in r.versions <==> k in VersionsOf(m) {
        assert !Missed(c, log, s0, n0, snapshot, n, k);
      }
      assert r.versions.Keys == VersionsOf(m).Keys;
      assert r.versions == VersionsOf(m);
    } else {
      var k :| Missed(c, log, s0, n0, snapshot, n, k);
      assert r.versions != VersionsOf(m);
    }
  }

  lemma MarkIsPast(c: Cache, log: seq<Op>, n0: nat, snapshot: seq<Event>)
    requires n0 <= |log| && c.seqNo <= n0
    requires IsSnapshot(snapshot, StateAt(log[..n0]))
    ensures Hydrate(c, snapshot).seqNo <= n0
  {
    var data := StateAt(log[..n0]);
    HydrateMark(c, snapshot, data);
    if Hydrate(c, snapshot).seqNo != c.seqNo {
      var e :| e in snapshot && e.version == Hydrate(c, snapshot).seqNo;
      assert Restates(e, data);
      StateByLastTouch(log, n0, e.key);
    }
  }

  /** A page that reconnects to the store it knew, and so has a mark the store has
      reached, misses just the keys it kept whose removal is Unheard. */
  lemma SameStoreMissesRemovals(c: Cache, log: seq<Op>, s0: nat, n0: nat, n: nat, snapshot: seq<Event>, k: string)
    requires s0 <= n0 <= n <= |log| && c.seqNo <= n0
    requires IsSnapshot(snapshot, StateAt(log[..n0]))
    ensures Missed(c, log, s0, n0, snapshot, n, k)
      <==> k in c.versions && k !in StateAt(log[..n]) && Unheard(c, log, s0, snapshot, n, k)
  {
    MarkIsPast(c, log, n0, snapshot);
    hide StateAt, LastTouch, Hydrate, IsSnapshot;
  }

  /** Subscribe-then-hydrate loses nothing: a fresh page agrees with the store,
      deletes included, after every change from the snapshot on, whatever was
      written between subscription and snapshot and in whatever order the
      snapshot came. */
  lemma FreshPageAgrees(log: seq<Op>, s0: nat, n0: nat, n: nat, snapshot: seq<Event>)
    requires s0 <= n0 <= n <= |log|
    requires IsSnapshot(snapshot, StateAt(log[..n0]))
    ensures Connect(Cache(map[], 0), log, s0, snapshot, n).versions == VersionsOf(StateAt(log[..n]))
  {
    var c := Cache(map[], 0);
    AgreesUnlessMissed(c, log, s0, n0, n, snapshot);
    forall k ensures !Missed(c, log, s0, n0, snapshot, n, k) {
      SameStoreMissesRemovals(c, log, s0, n0, n, snapshot, k);
    }
  }

  /** A page that was away while a key was deleted keeps the key. */
  lemma ReconnectingPageMayKeepDeleted()
    ensures var log := [Put("a", "1", "go"), Del("a", "go")];
      && IsSnapshot([], StateAt(log[..2]))
      && Connect(Cache(map["a" := 1], 1), log, 2, [], 2).versions == map["a" := 1]
      && StateAt(log[..2]) == map[]
  {
    var log := [Put("a", "1", "go"), Del("a", "go")];
    assert log[..2][..1] == [Put("a", "1", "go")];
    assert log[..2][..1][..0] == [];
    assert StateAt(log[..2][..1]) == map["a" := Entry("1", 1, "go")];
  }

  /** A page whose mark is from before the store started over takes a new change
      for a stale one. */
  lemma PageOutlivesItsStore()
    ensures var log := [Put("a", "1", "go"), Put("a", "2", "go")];
      var snapshot := [Event("a", "1", "go", false, 1, 1)];
      && IsSnapshot(snapshot, StateAt(log[..1]))
      && Connect(Cache(map[], 50), log, 1, snapshot, 2).versions == map["a" := 1]
      && VersionsOf(StateAt(log[..2])) == map["a" := 2]
  {
    var log := [Put("a", "1", "go"), Put("a", "2", "go")];
    var snapshot := [Event("a", "1", "go", false, 1, 1)];
    assert log[..1] == [log[0]] && log[..2] == log && log[..1][..0] == [] && log[..2][..1] == [log[0]];
    assert StateAt([log[0]]) == map["a" := Entry("1", 1, "go")] by {
      assert [log[0]][..0] == [];
    }
    assert StateAt(log) == map["a" := Entry("2", 2, "go")];
    assert Restates(snapshot[0], StateAt(log[..1]));
    assert snapshot[0] in snapshot && Covers(snapshot, "a");
    assert snapshot[..0] == [];
    assert Hydrate(Cache(map[], 50), snapshot) == Cache(map["a" := 1], 50);
  }

  // ------------------------------------------------- deltas that overtake others

  /** The changes of the given numbers, in the order they arrive.  The store sends
      them once it has let go of its lock, so one may overtake another. */
  function FollowOrder(c: Cache, log: seq<Op>, order: seq<nat>): Cache
    requires forall i :: 0 <= i < |order| ==> 1 <= order[i] <= |log|
  {
    if |order| == 0 then c
    else Apply(FollowOrder(c, log, order[..|order| - 1]), EventOf(log, order[|order| - 1]), true)
  }

  /** A larger number arrives before q. */
  ghost predicate Overtaken(order: seq<nat>, q: nat) {
    exists i, j :: 0 <= i < j < |order| && order[i] > q && order[j] == q
  }

  lemma {:induction false} LastTouchIsLast(log: seq<Op>, n: nat, x: nat, k: string)
    requires 1 <= x <= n <= |log| && log[x - 1].key == k
    ensures x <= LastTouch(log, n, k)
  {
    if x < n {
      LastTouchIsLast(log, n - 1, x, k);
    }
  }

  lemma {:induction false} OrderMark(c: Cache, log: seq<Op>, order: seq<nat>)
    requires forall i :: 0 <= i < |order| ==> 1 <= order[i] <= |log|
    ensures var r := FollowOrder(c, log, order);
      && r.seqNo >= c.seqNo && (forall i :: 0 <= i < |order| ==> order[i] <= r.seqNo)
      && (r.seqNo == c.seqNo || r.seqNo in order)
    decreases |order|
  {
    if |order| > 0 {
      OrderMark(c, log, order[..|order| - 1]);
      assert order == order[..|order| - 1] + [order[|order| - 1]];
    }
  }

  /** Changes up to the mark go unnoticed. */
  lemma {:induction false} OrderStays(c: Cache, log: seq<Op>, order: seq<nat>, k: string)
    requires forall i :: 0 <= i < |order| ==> 1 <= order[i] <= |log|
    requires forall i :: 0 <= i < |order| ==> log[order[i] - 1].key == k ==> order[i] <= c.seqNo
    ensures var r := FollowOrder(c, log, order);
      (k in r.versions <==> k in c.versions) && (k in r.versions ==> r.versions[k] == c.versions[k])
    decreases |order|
  {
    if |order| > 0 {
      OrderStays(c, log, order[..|order| - 1], k);
      OrderMark(c, log, order[..|order| - 1]);
    }
  }

  /** What one more change does to a key. */
  lemma ApplyOnKey(c: Cache, log: seq<Op>, x: nat, k: string)
    requires 1 <= x <= |log|
    ensures var r := Apply(c, EventOf(log, x), true);
      if x > c.seqNo && log[x - 1].key == k
      then (k in r.versions <==> log[x - 1].Put?) && (k in r.versions ==> r.versions[k] == x)
      else (k in r.versions <==> k in c.versions) && (k in r.versions ==> r.versions[k] == c.versions[k])
  {
  }

  lemma FrontNotOvertaken(order: seq<nat>, q: nat)
    requires |order| > 0 && !Overtaken(order, q)
    ensures !Overtaken(order[..|order| - 1], q)
    ensures order[|order| - 1] == q ==> forall x :: x in order ==> x <= q
    ensures forall x :: x in order <==> x in order[..|order| - 1] || x == order[|order| - 1]
  {
    var front := order[..|order| - 1];
    assert forall i :: 0 <= i < |front| ==> front[i] == order[i];
    assert order == front + [order[|order| - 1]];
  }

  /** A key ends with its last change if that is not overtaken. */
  lemma {:induction false} OrderEffect(c: Cache, log: seq<Op>, order: seq<nat>, n: nat, k: string)
    requires n <= |log| && forall i :: 0 <= i < |order| ==> 1 <= order[i] <= n
    requires LastTouch(log, n, k) in order && c.seqNo < LastTouch(log, n, k)
    requires !Overtaken(order, LastTouch(log, n, k))
    ensures var r, q := FollowOrder(c, log, order), LastTouch(log, n, k);
      (k in r.versions <==> log[q - 1].Put?) && (k in r.versions ==> r.versions[k] == q)
    decreases |order|
  {
    var front, x, q := order[..|order| - 1], order[|order| - 1], LastTouch(log, n, k);
    assert FollowOrder(c, log, order) == Apply(FollowOrder(c, log, front), EventOf(log, x), true);
    hide LastTouch, FollowOrder, Apply, EventOf, Overtaken;
    FrontNotOvertaken(order, q);
    OrderMark(c, log, front);
    ApplyOnKey(FollowOrder(c, log, front), log, x, k);
    if log[x - 1].key == k {
      LastTouchIsLast(log, n, x, k);
    }
    if q in front {
      OrderEffect(c, log, front, n, k);
    } else {
      assert x == q && (FollowOrder(c, log, front).seqNo in front ==> FollowOrder(c, log, front).seqNo in order);
    }
  }

  /** A version that is overtaken wherever it arrives never gets to the page. */
  lemma {:induction false} OvertakenIsLost(c: Cache, log: seq<Op>, order: seq<nat>, q: nat, k: string)
    requires forall i :: 0 <= i < |order| ==> 1 <= order[i] <= |log|
    requires forall j :: 0 <= j < |order| && order[j] == q ==> Overtaken(order[..j + 1], q)
    requires k in c.versions ==> c.versions[k] != q
    ensures var r := FollowOrder(c, log, order); k in r.versions ==> r.versions[k] != q
    decreases |order|
  {
    if |order| > 0 {
      var front := order[..|order| - 1];
      forall j | 0 <= j < |front| && front[j] == q ensures Overtaken(front[..j + 1], q) {
        assert front[..j + 1] == order[..j + 1];
      }
      OvertakenIsLost(c, log, front, q, k);
      OrderMark(c, log, front);
      assert order[..|order|] == order;
    }
  }

  /** All changes from the subscription up to n, each once, in some order. */
  ghost predicate IsArrival(order: seq<nat>, s0: nat, n: nat) {
    && (forall i :: 0 <= i < |order| ==> s0 < order[i] <= n)
    && (forall x :: s0 < x <= n ==> x in order)
    && (forall i, j :: 0 <= i < j < |order| ==> order[i] != order[j])
  }

  /** A fresh page tolerates changes out of order so long as the last change of
      each key is not overtaken by a later one of any key. */
  lemma FreshPageToleratesReordering(log: seq<Op>, s0: nat, n0: nat, n: nat, snapshot: seq<Event>, order: seq<nat>)
    requires s0 <= n0 <= n <= |log| && IsSnapshot(snapshot, StateAt(log[..n0])) && IsArrival(order, s0, n)
    requires forall k :: !Overtaken(order, LastTouch(log, n, k))
    ensures FollowOrder(Hydrate(Cache(map[], 0), snapshot), log, order).versions == VersionsOf(StateAt(log[..n]))
  {
    var r, m := FollowOrder(Hydrate(Cache(map[], 0), snapshot), log, order), StateAt(log[..n]);
    forall k ensures (k in r.versions <==> k in m) && (k in m ==> r.versions[k] == m[k].version) {
      assert !Overtaken(order, LastTouch(log, n, k));
      KeyArrives(log, s0, n0, n, snapshot, order, k);
    }
    assert r.versions.Keys == VersionsOf(m).Keys;
  }

  /** A key whose last change is not above the mark, or came before the page
      subscribed, stays as it is. */
  lemma KeyStays(c: Cache, log: seq<Op>, s0: nat, n: nat, order: seq<nat>, k: string)
    requires n <= |log| && IsArrival(order, s0, n) && (LastTouch(log, n, k) <= s0 || LastTouch(log, n, k) <= c.seqNo)
    ensures var r := FollowOrder(c, log, order);
      (k in r.versions <==> k in c.versions) && (k in r.versions ==> r.versions[k] == c.versions[k])
  {
    forall i | 0 <= i < |order| && log[order[i] - 1].key == k ensures order[i] <= c.seqNo {
      LastTouchIsLast(log, n, order[i], k);
    }
    hide LastTouch, FollowOrder;
    OrderStays(c, log, order, k);
  }

  lemma KeyArrives(log: seq<Op>, s0: nat, n0: nat, n: nat, snapshot: seq<Event>, order: seq<nat>, k: string)
    requires s0 <= n0 <= n <= |log| && IsSnapshot(snapshot, StateAt(log[..n0])) && IsArrival(order, s0, n)
    requires !Overtaken(order, LastTouch(log, n, k))
    ensures var r, m := FollowOrder(Hydrate(Cache(map[], 0), snapshot), log, order), StateAt(log[..n]);
      (k in r.versions <==> k in m) && (k in m ==> r.versions[k] == m[k].version)
  {
    var c, data, q := Cache(map[], 0), StateAt(log[..n0]), LastTouch(log, n, k);
    var h := Hydrate(c, snapshot);
    StateByLastTouch(log, n, k);
    StateByLastTouch(log, n0, k);
    TouchedSince(log, n0, n, k);
    HydrateEffect(c, snapshot, data, k);
    MarkIsPast(c, log, n0, snapshot);
    assert Covers(snapshot, k) <==> k in data;
    hide StateAt, Hydrate, IsSnapshot, Covers, Overtaken, FollowOrder, LastTouch;
    if q > s0 && h.seqNo < q {
      assert q in order && forall i :: 0 <= i < |order| ==> 1 <= order[i] <= n;
      hide IsArrival;
      OrderEffect(h, log, order, n, k);
    } else {
      hide IsArrival;
      KeyStays(h, log, s0, n, order, k);
    }
  }

  /** For a key written since the snapshot the condition is exact: the page has
      its version if and only if that was not overtaken. */
  lemma WrittenKeyArrivesIffFirst(log: seq<Op>, s0: nat, n0: nat, n: nat, snapshot: seq<Event>, order: seq<nat>,
                                  k: string)
    requires s0 <= n0 <= n <= |log| && IsSnapshot(snapshot, StateAt(log[..n0])) && IsArrival(order, s0, n)
    requires k in StateAt(log[..n]) && StateAt(log[..n])[k].version > n0
    ensures var r, q := FollowOrder(Hydrate(Cache(map[], 0), snapshot), log, order), StateAt(log[..n])[k].version;
      (k in r.versions && r.versions[k] == q) <==> !Overtaken(order, q)
  {
    StateByLastTouch(log, n, k);
    var c, data, q := Cache(map[], 0), StateAt(log[..n0]), LastTouch(log, n, k);
    if !Overtaken(order, q) {
      KeyArrives(log, s0, n0, n, snapshot, order, k);
    } else {
      var i, j :| 0 <= i < j < |order| && order[i] > q && order[j] == q;
      forall l | 0 <= l < |order| && order[l] == q ensures Overtaken(order[..l + 1], q) {
        assert l == j;
        assert order[..l + 1][i] == order[i] && order[..l + 1][j] == q;
      }
      StateByLastTouch(log, n0, k);
      HydrateEffect(c, snapshot, data, k);
      OvertakenIsLost(Hydrate(c, snapshot), log, order, q, k);
    }
  }
}
