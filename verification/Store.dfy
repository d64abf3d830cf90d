/** The versioned key/value store: every write and delete takes the next number
    of one global sequence, which becomes the version of the key it writes. */
module Store {
  datatype Event = Event(key: string, value: string, source: string, deleted: bool, version: nat, seqNo: nat)

  datatype Entry = Entry(value: string, version: nat, source: string)

  /** One successful operation; the n-th has sequence number n. */
  datatype Op = Put(key: string, value: string, source: string) | Del(key: string, source: string)

  /** The store after the operations of a log. */
  function StateAt(log: seq<Op>): map<string, Entry> {
    if |log| == 0 then map[]
    else
      var before := StateAt(log[..|log| - 1]);
      match log[|log| - 1]
      case Put(k, v, src) => before[k := Entry(v, |log|, src)]
      case Del(k, _) => before - {k}
  }

  /** The event that operation n publishes. */
  function EventOf(log: seq<Op>, n: nat): Event
    requires 1 <= n <= |log|
  {
    match log[n - 1]
    case Put(k, v, src) => Event(k, v, src, false, n, n)
    case Del(k, src) => Event(k, "", src, true, n, n)
  }

  /** The number of the last operation on key k among the first n, 0 if none. */
  function LastTouch(log: seq<Op>, n: nat, k: string): (r: nat)
    requires n <= |log|
    ensures r <= n && (r > 0 ==> log[r - 1].key == k)
  {
    if n == 0 then 0 else if log[n - 1].key == k then n else LastTouch(log, n - 1, k)
  }

  /** A key holds what its last operation left. */
  lemma {:induction false} StateByLastTouch(log: seq<Op>, n: nat, k: string)
    requires n <= |log|
    ensures var q, m := LastTouch(log, n, k), StateAt(log[..n]);
      && (k in m <==> q > 0 && log[q - 1].Put?)
      && (k in m ==> m[k] == Entry(log[q - 1].value, q, log[q - 1].source))
  {
    if n > 0 {
      assert log[..n][..n - 1] == log[..n - 1];
      StateByLastTouch(log, n - 1, k);
    }
  }

  /** Versions never repeat: a key that has the same version at two moments was
      not touched in between.  This is what a conditional write relies on. */
  lemma VersionPinsKey(log: seq<Op>, m: nat, n: nat, k: string)
    requires m <= n <= |log|
    requires k in StateAt(log[..m]) && k in StateAt(log[..n])
    ensures StateAt(log[..m])[k].version == StateAt(log[..n])[k].version
       <==> forall i :: m <= i < n ==> log[i].key != k
  {
    StateByLastTouch(log, m, k);
    StateByLastTouch(log, n, k);
    TouchedSince(log, m, n, k);
  }

  lemma {:induction false} TouchedSince(log: seq<Op>, m: nat, n: nat, k: string)
    requires m <= n <= |log|
    ensures LastTouch(log, n, k) == LastTouch(log, m, k) <==> forall i :: m <= i < n ==> log[i].key != k
    ensures LastTouch(log, n, k) != LastTouch(log, m, k) ==> LastTouch(log, n, k) > m
  {
    if m < n {
      TouchedSince(log, m, n - 1, k);
    }
  }

  /** One event for each live key, in some order. */
  ghost predicate IsSnapshot(events: seq<Event>, data: map<string, Entry>) {
    && (forall e :: e in events ==> Restates(e, data))
    && (forall i, j :: 0 <= i < j < |events| ==> events[i].key != events[j].key)
    && (forall k :: k in data ==> Covers(events, k))
  }

  ghost predicate Covers(events: seq<Event>, k: string) {
    exists e :: e in events && e.key == k
  }

  ghost predicate Restates(e: Event, data: map<string, Entry>) {
    && e.key in data
    && var d := data[e.key];
      e == Event(e.key, d.value, d.source, false, d.version, d.version)
  }

  /** The n-th event tells what the n-th operation did: a write restates the key
      as the store has it at that moment, just as a snapshot would; a delete names
      a key the store no longer has.  Either says who did it. */
  lemma EventsTell(log: seq<Op>, n: nat)
    requires 1 <= n <= |log|
    ensures var e, op, now := EventOf(log, n), log[n - 1], StateAt(log[..n]);
      && e.seqNo == e.version == n && e.key == op.key && e.source == op.source
      && (e.deleted <==> op.Del?)
      && (op.Put? ==> Restates(e, now) && e.value == op.value)
      && (op.Del? ==> e.key !in now && e.value == "")
  {
    StateByLastTouch(log, n, log[n - 1].key);
  }

  class Store {
    var data: map<string, Entry>
    var seqNo: nat
    ghost var log: seq<Op>
    /** What has been handed to the broadcaster, in order. */
    var published: seq<Event>

    ghost predicate Valid()
      reads this
    {
      && data == StateAt(log)
      && seqNo == |log| == |published|
      && forall n :: 1 <= n <= |log| ==> published[n - 1] == EventOf(log, n)
    }

    constructor ()
      ensures Valid() && log == []
    {
      data, seqNo, log, published := map[], 0, [], [];
    }

    /** Write key when the caller's version is current, or unconditionally for 0. */
    method SetIf(key: string, value: string, source: string, wantVersion: nat) returns (version: nat, ok: bool)
      requires Valid()
      modifies this
      ensures Valid()
      ensures ok <==> (wantVersion == 0 || (key in old(data) && old(data)[key].version == wantVersion))
      ensures ok ==> log == old(log) + [Put(key, value, source)] && version == |log|
      ensures ok ==> data == old(data)[key := Entry(value, version, source)]
      ensures ok ==>
        && published == old(published) + [Event(key, value, source, false, version, version)]
        && Restates(published[|published| - 1], data)
      ensures !ok ==> log == old(log) && data == old(data) && published == old(published)
      ensures !ok ==> version == if key in old(data) then old(data)[key].version else 0
    {
      StateByLastTouch(log, |log|, key);
      assert log[..|log|] == log;
      var current := if key in data then data[key].version else 0;
      if wantVersion != 0 && current != wantVersion {
        return current, false;
      }
      seqNo := seqNo + 1;
      data := data[key := Entry(value, seqNo, source)];
      log := log + [Put(key, value, source)];
      assert log[..|log| - 1] == old(log);
      published := published + [Event(key, value, source, false, seqNo, seqNo)];
      assert forall n :: 1 <= n <= |old(log)| ==> EventOf(log, n) == EventOf(old(log), n);
      return seqNo, true;
    }

    /** Remove a key; false when there is none. */
    method Delete(key: string, source: string) returns (ok: bool)
      requires Valid()
      modifies this
      ensures Valid()
      ensures ok <==> key in old(data)
      ensures log == if ok then old(log) + [Del(key, source)] else old(log)
      ensures data == old(data) - {key}
      ensures published == old(published) + if ok then [Event(key, "", source, true, |log|, |log|)] else []
    {
      if key !in data {
        assert data - {key} == data;
        return false;
      }
      data := data - {key};
      seqNo := seqNo + 1;
      log := log + [Del(key, source)];
      assert log[..|log| - 1] == old(log);
      published := published + [Event(key, "", source, true, seqNo, seqNo)];
      assert forall n :: 1 <= n <= |old(log)| ==> EventOf(log, n) == EventOf(old(log), n);
      return true;
    }

    /** A full snapshot, in whatever order the keys come. */
    method AllStates() returns (events: seq<Event>)
      requires Valid()
      ensures IsSnapshot(events, StateAt(log))
    {
      events := [];
      var rest := data.Keys;
      while rest != {}
        invariant rest <= data.Keys
        invariant forall e :: e in events ==> Restates(e, data) && e.key !in rest
        invariant forall i, j :: 0 <= i < j < |events| ==> events[i].key != events[j].key
        invariant forall k :: k in data && k !in rest ==> Covers(events, k)
        decreases |rest|
      {
        var k :| k in rest;
        var e := Event(k, data[k].value, data[k].source, false, data[k].version, data[k].version);
        ghost var before := events;
        rest := rest - {k};
        events := events + [e];
        forall x | x in data && x !in rest ensures Covers(events, x) {
          if x == k {
            assert e in events;
          } else {
            assert Covers(before, x);
            var f :| f in before && f.key == x;
            assert f in events;
          }
        }
        forall i, j | 0 <= i < j < |events| ensures events[i].key != events[j].key {
          assert before[i] in before;
        }
      }
    }
  }
}
