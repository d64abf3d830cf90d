/** Recovery: what the queue owes to a surface that is behind.  Under resync a
    gap always has its reconnect on the way, and in either semantics an ungapped
    surface has on the way every event it still needs. */
module SimRecovery {
  import opened SimModel
  import opened SimSafety

  ghost predicate HasReconnect(q: seq<Delivery>, i: nat) {
    exists d :: d in q && d.surface == i && d.payload.Reconnection?
  }

  ghost predicate HasEvent(q: seq<Delivery>, i: nat, v: int) {
    exists d :: d in q && d.surface == i && d.payload.Carry? && d.payload.ev.version == v
  }

  ghost predicate Covered(cfg: Config, q: seq<Delivery>, sf: Surface, i: nat, upto: int) {
    && (cfg.resync && sf.gap ==> HasReconnect(q, i))
    && (cfg.semantics == Delta && !sf.gap ==> forall v :: sf.version < v <= upto ==> HasEvent(q, i, v))
    && (cfg.semantics == Snapshot && cfg.resync && sf.version < upto ==>
          HasReconnect(q, i) || (sf.connected && HasEvent(q, i, upto)))
  }

  ghost predicate Recoverable(cfg: Config, s: State, fanned: nat) {
    forall i :: 0 <= i < |s.surf| ==> Covered(cfg, s.queue, s.surf[i], i, Upto(s.srvVer, fanned, i))
  }

  /** A longer queue owes no less. */
  lemma CoveredGrows(cfg: Config, q: seq<Delivery>, q': seq<Delivery>, sf: Surface, i: nat, upto: int)
    requires Covered(cfg, q, sf, i, upto)
    requires forall d :: d in q ==> d in q'
    ensures Covered(cfg, q', sf, i, upto)
  {
    assert HasReconnect(q, i) ==> HasReconnect(q', i);
    assert forall v :: HasEvent(q, i, v) ==> HasEvent(q', i, v);
  }

  /** Taking an item off the queue costs only the surface it was for. */
  lemma CoveredOthers(cfg: Config, q: seq<Delivery>, idx: nat, sf: Surface, i: nat, upto: int)
    requires Covered(cfg, q, sf, i, upto) && idx < |q| && q[idx].surface != i
    ensures Covered(cfg, q[..idx] + q[idx + 1..], sf, i, upto)
  {
    var q' := q[..idx] + q[idx + 1..];
    forall d | d in q && d.surface == i ensures d in q' {
      TakeKeeps(q, idx, d);
    }
    assert HasReconnect(q, i) ==> HasReconnect(q', i);
    assert forall v :: HasEvent(q, i, v) ==> HasEvent(q', i, v);
  }

  lemma TakeKeeps(q: seq<Delivery>, idx: nat, d: Delivery)
    requires idx < |q| && d in q && d != q[idx]
    ensures d in q[..idx] + q[idx + 1..]
  {
    var k :| 0 <= k < |q| && q[k] == d;
    assert d in if k < idx then q[..idx] else q[idx + 1..];
  }

  lemma FateRecoverable(cfg: Config, s: State, i: nat, ev: Event, fate: Fate)
    requires Safe(cfg, s, i) && i < |s.surf| && ev.version == s.srvVer
    requires Possible(cfg, s.surf[i], fate)
    requires Recoverable(cfg, s, i)
    ensures Recoverable(cfg, ApplyFate(cfg, s, i, ev, fate), i + 1)
  {
    var r := ApplyFate(cfg, s, i, ev, fate);
    assert forall d :: d in s.queue ==> d in r.queue;
    forall j | 0 <= j < |r.surf| && j != i
      ensures Covered(cfg, r.queue, r.surf[j], j, Upto(r.srvVer, i + 1, j))
    {
      CoveredGrows(cfg, s.queue, r.queue, s.surf[j], j, Upto(s.srvVer, i, j));
    }
    assert Covered(cfg, s.queue, s.surf[i], i, s.srvVer - 1);
    CoveredGrows(cfg, s.queue, r.queue, s.surf[i], i, s.srvVer - 1);
    assert SurfaceSound(s.writes, s.surf[i], Upto(s.srvVer, i, i));
    if fate != Dark && |r.queue| > |s.queue| {
      assert r.queue[|s.queue|] in r.queue;
    }
  }

  lemma BeginRecoverable(cfg: Config, s: State, key: nat)
    requires Recoverable(cfg, s, |s.surf|)
    ensures Recoverable(cfg, BeginWrite(s, key), 0)
  {
    var r := BeginWrite(s, key);
    forall j | 0 <= j < |r.surf| ensures Covered(cfg, r.queue, r.surf[j], j, Upto(r.srvVer, 0, j)) {
      assert Covered(cfg, s.queue, s.surf[j], j, Upto(s.srvVer, |s.surf|, j));
    }
  }

  lemma HydratedCovered(cfg: Config, s: State, q: seq<Delivery>, i: nat)
    ensures Covered(cfg, q, Surface(true, 0, s.srvData, s.srvVer, false, []), i, s.srvVer)
  {
  }

  /** Delivering an event leaves its surface owed nothing that is not queued. */
  lemma DeliverCovered(cfg: Config, s: State, q: seq<Delivery>, idx: nat, d: Delivery)
    requires Safe(cfg, s, |s.surf|) && idx < |q| && q[idx] == d
    requires s.queue == q[..idx] + q[idx + 1..]
    requires d.payload.Carry? && Faithful(cfg, s.writes, s.seqNo, d)
    requires Covered(cfg, q, s.surf[d.surface], d.surface, s.srvVer)
    ensures var r := Deliver(cfg, s, d.surface, d.payload.ev);
      Covered(cfg, r.queue, r.surf[d.surface], d.surface, s.srvVer)
  {
    var i, ev := d.surface, d.payload.ev;
    var r := Deliver(cfg, s, i, ev);
    var sf, sf' := s.surf[i], r.surf[i];
    assert SurfaceSound(s.writes, sf, Upto(s.srvVer, |s.surf|, i));
    forall e | e in q && e != d ensures e in r.queue {
      TakeKeeps(q, idx, e);
    }
    assert HasReconnect(q, i) ==> HasReconnect(r.queue, i);
    forall v | HasEvent(q, i, v) && v != ev.version ensures HasEvent(r.queue, i, v) {
      var e :| e in q && e.surface == i && e.payload.Carry? && e.payload.ev.version == v;
      assert e in r.queue;
    }
    if cfg.resync && sf'.gap && !sf.gap {
      assert r.queue[|s.queue|] in r.queue;
    }
  }

  lemma ProcessRecoverable(cfg: Config, s: State, idx: nat)
    requires Safe(cfg, s, |s.surf|) && idx < |s.queue| && Addressed(s)
    requires Recoverable(cfg, s, |s.surf|)
    ensures Recoverable(cfg, Process(cfg, s, idx), |s.surf|)
  {
    var d := s.queue[idx];
    var rest := s.queue[..idx] + s.queue[idx + 1..];
    var s1 := s.(queue := rest, handled := s.handled + [Handled(d, s.step)]);
    var r := Process(cfg, s, idx);
    assert forall e :: e in rest ==> e in r.queue;
    forall j | 0 <= j < |r.surf| && j != d.surface
      ensures Covered(cfg, r.queue, r.surf[j], j, Upto(r.srvVer, |s.surf|, j))
    {
      CoveredOthers(cfg, s.queue, idx, s.surf[j], j, s.srvVer);
      CoveredGrows(cfg, rest, r.queue, s.surf[j], j, s.srvVer);
    }
    assert Faithful(cfg, s.writes, s.seqNo, d);
    assert Covered(cfg, s.queue, s.surf[d.surface], d.surface, Upto(s.srvVer, |s.surf|, d.surface));
    if d.payload.Carry? {
      TakeSorted(s.queue, idx);
      assert Safe(cfg, s1, |s.surf|);
      DeliverCovered(cfg, s1, s.queue, idx, d);
    } else {
      HydratedCovered(cfg, s, r.queue, d.surface);
    }
  }

  /** With nothing in flight, a recoverable kernel under resync has converged. */
  lemma EmptyQueueConverged(cfg: Config, s: State, i: nat)
    requires Safe(cfg, s, |s.surf|) && Recoverable(cfg, s, |s.surf|)
    requires s.queue == [] && i < |s.surf|
    ensures cfg.resync ==> !Lagging(s, i) && s.surf[i].data == s.srvData
    ensures cfg.semantics == Delta ==>
      (s.surf[i].version == s.srvVer <==> !s.surf[i].gap) && (s.surf[i].gap || s.surf[i].data == s.srvData)
  {
    assert SurfaceSound(s.writes, s.surf[i], Upto(s.srvVer, |s.surf|, i));
    assert Covered(cfg, s.queue, s.surf[i], i, Upto(s.srvVer, |s.surf|, i));
    assert s.writes[..s.srvVer] == s.writes;
    assert HasEvent(s.queue, i, s.srvVer) ==> false;
  }
}
