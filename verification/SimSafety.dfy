/** Safety of the kernel: what a surface shows is always the authoritative map
    as it stood at the surface's version, versions never decrease, and without
    resync a delta surface that has a gap is frozen. */
module SimSafety {
  import opened SimModel

  // --------------------------------------------------------------- invariants

  /** What a surface shows is a prefix of the write history, it knows nothing
      beyond version upto, and a dark or gapped surface really is behind. */
  ghost predicate SurfaceSound(writes: seq<Write>, sf: Surface, upto: int) {
    && sf.version <= upto <= |writes|
    && sf.data == Replay(writes[..sf.version])
    && (!sf.connected ==> sf.gap)
    && (sf.gap ==> sf.version < upto)
    && Ascending(sf.history)
    && sf.version == if sf.history == [] then 0 else sf.history[|sf.history| - 1]
  }

  ghost predicate Ascending(h: seq<nat>) {
    forall i, j :: 0 <= i < j < |h| ==> h[i] <= h[j]
  }

  /** What a later look at a surface may show, given an earlier one. */
  ghost predicate Follows(cfg: Config, a: Surface, b: Surface) {
    && a.version <= b.version
    && (cfg.semantics == Delta && !cfg.resync && a.gap ==>
          b.gap && b.version == a.version && b.data == a.data)
  }

  ghost predicate AllFollow(cfg: Config, a: seq<Surface>, b: seq<Surface>) {
    |a| == |b| && forall i :: 0 <= i < |a| ==> Follows(cfg, a[i], b[i])
  }

  /** An item of the queue carries what the server wrote. */
  ghost predicate Faithful(cfg: Config, writes: seq<Write>, seqNo: nat, d: Delivery) {
    && d.surface < cfg.surfaces
    && d.seqNo < seqNo
    && match d.payload
       case Reconnection => cfg.resync
       case Carry(SnapshotEvent(v, m)) =>
         cfg.semantics == Snapshot && 1 <= v <= |writes| && m == Replay(writes[..v])
       case Carry(DeltaEvent(v, k, x)) =>
         cfg.semantics == Delta && 1 <= v <= |writes| && writes[v - 1] == Write(k, x)
  }

  ghost predicate QueueSound(cfg: Config, writes: seq<Write>, seqNo: nat, q: seq<Delivery>) {
    && Sorted(q)
    && forall d :: d in q ==> Faithful(cfg, writes, seqNo, d)
  }

  ghost predicate InstantSound(writes: seq<Write>, t: Instant) {
    && t.srvVer <= |writes|
    && t.srvData == Replay(writes[..t.srvVer])
    && forall i :: 0 <= i < |t.surf| ==> SurfaceSound(writes, t.surf[i], t.srvVer)
  }

  ghost predicate InstantsSound(writes: seq<Write>, trace: seq<Instant>) {
    forall k :: 0 <= k < |trace| ==> InstantSound(writes, trace[k])
  }

  /** Each instant is followed by the later ones and by the present. */
  ghost predicate TraceOrdered(cfg: Config, trace: seq<Instant>, surf: seq<Surface>) {
    && (forall k :: 0 <= k < |trace| ==> AllFollow(cfg, trace[k].surf, surf))
    && (forall k, l :: 0 <= k < l < |trace| ==> AllFollow(cfg, trace[k].surf, trace[l].surf))
  }

  /** The version surface i has been told about when write srvVer has reached
      surfaces 0, ..., fanned-1. */
  function Upto(srvVer: nat, fanned: nat, i: nat): int {
    if i < fanned then srvVer else srvVer - 1
  }

  ghost predicate SurfacesSound(writes: seq<Write>, surf: seq<Surface>, fanned: nat) {
    forall i :: 0 <= i < |surf| ==> SurfaceSound(writes, surf[i], Upto(|writes|, fanned, i))
  }

  ghost predicate Safe(cfg: Config, s: State, fanned: nat) {
    && |s.surf| == cfg.surfaces
    && fanned <= |s.surf|
    && |s.writes| == s.srvVer
    && s.srvData == Replay(s.writes)
    && QueueSound(cfg, s.writes, s.seqNo, s.queue)
    && SurfacesSound(s.writes, s.surf, fanned)
    && InstantsSound(s.writes, s.trace)
    && TraceOrdered(cfg, s.trace, s.surf)
  }

  // ------------------------------------------------------------- small effects

  lemma ReplayExtended(writes: seq<Write>, w: Write, v: nat)
    requires v <= |writes|
    ensures (writes + [w])[..v] == writes[..v]
  {
  }

  /** One more write disturbs nothing that was sound. */
  lemma SoundExtended(writes: seq<Write>, w: Write, sf: Surface, upto: int)
    requires SurfaceSound(writes, sf, upto)
    ensures SurfaceSound(writes + [w], sf, upto)
  {
    ReplayExtended(writes, w, sf.version);
  }

  lemma InstantsExtended(writes: seq<Write>, w: Write, trace: seq<Instant>)
    requires InstantsSound(writes, trace)
    ensures InstantsSound(writes + [w], trace)
  {
    forall k | 0 <= k < |trace| ensures InstantSound(writes + [w], trace[k]) {
      var t := trace[k];
      ReplayExtended(writes, w, t.srvVer);
      forall i | 0 <= i < |t.surf| ensures SurfaceSound(writes + [w], t.surf[i], t.srvVer) {
        SoundExtended(writes, w, t.surf[i], t.srvVer);
      }
    }
  }

  lemma QueueExtended(cfg: Config, writes: seq<Write>, w: Write, seqNo: nat, q: seq<Delivery>)
    requires QueueSound(cfg, writes, seqNo, q)
    ensures QueueSound(cfg, writes + [w], seqNo, q)
  {
    forall d | d in q ensures Faithful(cfg, writes + [w], seqNo, d) {
      assert Faithful(cfg, writes, seqNo, d);
      if d.payload.Carry? {
        ReplayExtended(writes, w, d.payload.ev.version);
      }
    }
  }

  lemma EmitSafe(cfg: Config, s: State, fanned: nat, kind: ActionKind, surface: int, version: nat)
    requires Safe(cfg, s, fanned)
    ensures Safe(cfg, Emit(s, kind, surface, version), fanned)
  {
    var r := Emit(s, kind, surface, version);
    var t := r.trace[|s.trace|];
    assert InstantSound(s.writes, t) by {
      assert s.writes[..s.srvVer] == s.writes;
      forall i | 0 <= i < |t.surf| ensures SurfaceSound(s.writes, t.surf[i], t.srvVer) {
        assert SurfaceSound(s.writes, s.surf[i], Upto(s.srvVer, fanned, i));
      }
    }
    assert AllFollow(cfg, s.surf, s.surf);
  }

  lemma UpdateSafe(cfg: Config, s: State, fanned: nat, i: nat, sf: Surface)
    requires Safe(cfg, s, fanned) && i < |s.surf|
    requires SurfaceSound(s.writes, sf, Upto(s.srvVer, fanned, i))
    requires Follows(cfg, s.surf[i], sf)
    ensures Safe(cfg, Update(s, i, sf), fanned)
  {
    var r := Update(s, i, sf);
    forall k | 0 <= k < |s.trace| ensures AllFollow(cfg, s.trace[k].surf, r.surf) {
      var a := s.trace[k].surf;
      assert AllFollow(cfg, a, s.surf);
      forall j | 0 <= j < |a| ensures Follows(cfg, a[j], r.surf[j]) {
        assert Follows(cfg, a[j], s.surf[j]);
      }
    }
  }

  lemma ScheduleSafe(cfg: Config, s: State, fanned: nat, at: int, i: nat, p: Payload)
    requires Safe(cfg, s, fanned)
    requires Faithful(cfg, s.writes, s.seqNo + 1, Delivery(at, s.seqNo, i, p))
    ensures Safe(cfg, Schedule(s, at, i, p), fanned)
  {
    var q := s.queue + [Delivery(at, s.seqNo, i, p)];
    forall k | 0 <= k < |s.queue| ensures q[k].seqNo < s.seqNo {
      assert Faithful(cfg, s.writes, s.seqNo, s.queue[k]);
    }
    forall d | d in q ensures Faithful(cfg, s.writes, s.seqNo + 1, d) {
      assert d in s.queue ==> Faithful(cfg, s.writes, s.seqNo, d);
    }
  }

  lemma ShowSafe(cfg: Config, s: State, fanned: nat, i: nat, sf: Surface, kind: ActionKind, v: nat)
    requires Safe(cfg, s, fanned) && i < |s.surf|
    requires SurfaceSound(s.writes, sf, Upto(s.srvVer, fanned, i))
    requires Follows(cfg, s.surf[i], sf)
    ensures Safe(cfg, Emit(Update(s, i, sf), kind, i, v), fanned)
  {
    UpdateSafe(cfg, s, fanned, i, sf);
    EmitSafe(cfg, Update(s, i, sf), fanned, kind, i, v);
  }

  lemma MissSafe(cfg: Config, s: State, fanned: nat, i: nat)
    requires Safe(cfg, s, fanned) && i < |s.surf|
    requires s.surf[i].version < Upto(s.srvVer, fanned, i)
    ensures Safe(cfg, Miss(cfg, s, i), fanned)
  {
    var s1 := Update(s, i, s.surf[i].(gap := true));
    UpdateSafe(cfg, s, fanned, i, s.surf[i].(gap := true));
    if cfg.resync {
      ScheduleSafe(cfg, s1, fanned, s.step + 1 + cfg.faults.reconnectAfter, i, Reconnection);
    }
  }

  // --------------------------------------------------------------------- steps

  lemma PartitionSafe(cfg: Config, s: State, fanned: nat, i: nat, v: nat)
    requires Safe(cfg, s, fanned) && i < |s.surf|
    requires s.surf[i].version < Upto(s.srvVer, fanned, i)
    ensures Safe(cfg, ApplyFate(cfg, s, i, SnapshotEvent(v, map[]), Partitioned), fanned)
  {
    assert SurfaceSound(s.writes, s.surf[i], Upto(s.srvVer, fanned, i));
    var sf := s.surf[i].(connected := false, buf := 0, gap := true);
    ShowSafe(cfg, s, fanned, i, sf, ActPartition, v);
    if cfg.resync {
      ScheduleSafe(cfg, Emit(Update(s, i, sf), ActPartition, i, v), fanned,
                   s.step + cfg.faults.reconnectAfter, i, Reconnection);
    }
  }

  lemma SentSafe(cfg: Config, s: State, fanned: nat, i: nat, d: Delivery, ev: Event, delay: nat, twice: bool)
    requires Safe(cfg, s, fanned) && i < |s.surf|
    requires Faithful(cfg, s.writes, d.seqNo + 1, d) && d.surface == i && d.payload == Carry(ev)
    ensures Safe(cfg, ApplyFate(cfg, s, i, ev, Sent(delay, twice)), fanned)
  {
    assert SurfaceSound(s.writes, s.surf[i], Upto(s.srvVer, fanned, i));
    hide Safe, Faithful;
    var sf := s.surf[i].(buf := s.surf[i].buf + 1);
    UpdateSafe(cfg, s, fanned, i, sf);
    var s0 := Update(s, i, sf);
    var s1 := Schedule(s0, s.step + delay, i, Carry(ev));
    var s2 := Schedule(s1, s.step + delay, i, Carry(ev));
    assert ApplyFate(cfg, s, i, ev, Sent(delay, twice)) == if twice then Emit(s2, ActDuplicate, i, ev.version) else s1;
    hide ApplyFate, SurfaceSound, Emit;
    ScheduleSafe(cfg, s0, fanned, s.step + delay, i, Carry(ev));
    if twice {
      ScheduleSafe(cfg, s1, fanned, s.step + delay, i, Carry(ev));
      EmitSafe(cfg, s2, fanned, ActDuplicate, i, ev.version);
    }
  }

  lemma FateSafe(cfg: Config, s: State, i: nat, d: Delivery, ev: Event, fate: Fate)
    requires Safe(cfg, s, i) && i < |s.surf| && s.srvVer >= 1
    requires Faithful(cfg, s.writes, d.seqNo + 1, d) && d.surface == i && d.payload == Carry(ev)
    ensures Safe(cfg, ApplyFate(cfg, s, i, ev, fate), i + 1)
  {
    assert SurfaceSound(s.writes, s.surf[i], Upto(s.srvVer, i, i));
    assert Safe(cfg, s, i + 1);
    if fate.Sent? {
      SentSafe(cfg, s, i + 1, i, d, ev, fate.delay, fate.twice);
    } else if fate.Partitioned? {
      PartitionSafe(cfg, s, i + 1, i, ev.version);
    } else if !fate.Dark? {
      EmitSafe(cfg, s, i + 1, ActDrop, i, ev.version);
      MissSafe(cfg, Emit(s, ActDrop, i, ev.version), i + 1, i);
    }
  }

  lemma BeginSafe(cfg: Config, s: State, key: nat)
    requires Safe(cfg, s, |s.surf|)
    ensures Safe(cfg, BeginWrite(s, key), 0)
  {
    var w := Write(key, s.srvVer + 1);
    var r := s.(srvVer := s.srvVer + 1, srvData := s.srvData[key := s.srvVer + 1], writes := s.writes + [w]);
    assert r.writes[..|r.writes| - 1] == s.writes;
    forall i | 0 <= i < |r.surf| ensures SurfaceSound(r.writes, r.surf[i], Upto(|r.writes|, 0, i)) {
      assert SurfaceSound(s.writes, s.surf[i], Upto(|s.writes|, |s.surf|, i));
      SoundExtended(s.writes, w, s.surf[i], s.srvVer);
    }
    QueueExtended(cfg, s.writes, w, s.seqNo, s.queue);
    InstantsExtended(s.writes, w, s.trace);
    EmitSafe(cfg, r, 0, ActWrite, -1, r.srvVer);
  }

  /** The event of a write, addressed to a surface, is what the server wrote. */
  lemma LatestFaithful(cfg: Config, s: State, key: nat, d: Delivery)
    requires Safe(cfg, s, |s.surf|) && d.surface < cfg.surfaces
    requires d.payload == Carry(LatestEvent(cfg, BeginWrite(s, key), key))
    ensures Faithful(cfg, BeginWrite(s, key).writes, d.seqNo + 1, d)
  {
    var b := BeginWrite(s, key);
    assert b.writes[..|b.writes| - 1] == s.writes;
    assert b.writes[..|b.writes|] == b.writes;
  }

  lemma HydrateSafe(cfg: Config, s: State, i: nat)
    requires Safe(cfg, s, |s.surf|) && i < |s.surf|
    requires cfg.resync || !s.surf[i].gap
    ensures Safe(cfg, Hydrate(s, i), |s.surf|)
  {
    assert s.writes[..s.srvVer] == s.writes;
    var sf := s.surf[i];
    assert SurfaceSound(s.writes, sf, s.srvVer);
    UpdateSafe(cfg, s, |s.surf|, i, Surface(true, 0, s.srvData, s.srvVer, false, sf.history + [s.srvVer]));
  }

  lemma ReconnectSafe(cfg: Config, s: State, i: nat)
    requires Safe(cfg, s, |s.surf|) && i < |s.surf|
    requires cfg.resync || !s.surf[i].gap
    ensures Safe(cfg, Reconnect(s, i), |s.surf|)
  {
    HydrateSafe(cfg, s, i);
    EmitSafe(cfg, Hydrate(s, i), |s.surf|, ActReconnect, i, s.srvVer);
  }

  lemma SnapshotSafe(cfg: Config, s: State, d: Delivery)
    requires Safe(cfg, s, |s.surf|) && Faithful(cfg, s.writes, s.seqNo, d)
    requires d.payload.Carry? && d.payload.ev.SnapshotEvent?
    requires s.surf[d.surface].connected && d.payload.ev.version > s.surf[d.surface].version
    ensures var sf, ev := s.surf[d.surface], d.payload.ev;
      var sf' := sf.(data := ev.snapshot, version := ev.version, gap := false, history := sf.history + [ev.version]);
      Safe(cfg, Emit(Update(s, d.surface, sf'), ActDeliver, d.surface, ev.version), |s.surf|)
  {
    var sf, ev := s.surf[d.surface], d.payload.ev;
    assert SurfaceSound(s.writes, sf, Upto(s.srvVer, |s.surf|, d.surface));
    var sf' := sf.(data := ev.snapshot, version := ev.version, gap := false, history := sf.history + [ev.version]);
    ShowSafe(cfg, s, |s.surf|, d.surface, sf', ActDeliver, ev.version);
  }

  lemma DeltaSafe(cfg: Config, s: State, d: Delivery)
    requires Safe(cfg, s, |s.surf|) && Faithful(cfg, s.writes, s.seqNo, d)
    requires d.payload.Carry? && d.payload.ev.DeltaEvent?
    requires d.payload.ev.version == s.surf[d.surface].version + 1 && !s.surf[d.surface].gap
    ensures var sf, ev := s.surf[d.surface], d.payload.ev;
      var sf' := sf.(data := sf.data[ev.key := ev.val], version := ev.version, history := sf.history + [ev.version]);
      Safe(cfg, Emit(Update(s, d.surface, sf'), ActDeliver, d.surface, ev.version), |s.surf|)
  {
    var sf, ev := s.surf[d.surface], d.payload.ev;
    var v := ev.version;
    assert SurfaceSound(s.writes, sf, Upto(s.srvVer, |s.surf|, d.surface));
    assert s.writes[..v][..v - 1] == s.writes[..v - 1];
    var sf' := sf.(data := sf.data[ev.key := ev.val], version := v, history := sf.history + [v]);
    ShowSafe(cfg, s, |s.surf|, d.surface, sf', ActDeliver, v);
  }

  lemma GapSafe(cfg: Config, s: State, i: nat, v: nat)
    requires Safe(cfg, s, |s.surf|) && i < |s.surf|
    requires s.surf[i].version < v <= s.srvVer
    ensures var s1 := Emit(Update(s, i, s.surf[i].(gap := true)), ActGap, i, v);
      Safe(cfg, Miss(cfg, s1, i), |s.surf|)
  {
    assert SurfaceSound(s.writes, s.surf[i], Upto(s.srvVer, |s.surf|, i));
    ShowSafe(cfg, s, |s.surf|, i, s.surf[i].(gap := true), ActGap, v);
    MissSafe(cfg, Emit(Update(s, i, s.surf[i].(gap := true)), ActGap, i, v), |s.surf|, i);
  }

  lemma DeliverSafe(cfg: Config, s: State, d: Delivery)
    requires Safe(cfg, s, |s.surf|) && d.payload.Carry? && Faithful(cfg, s.writes, s.seqNo, d)
    ensures Safe(cfg, Deliver(cfg, s, d.surface, d.payload.ev), |s.surf|)
  {
    var i, ev := d.surface, d.payload.ev;
    var sf := s.surf[i].(buf := if s.surf[i].buf > 0 then s.surf[i].buf - 1 else 0);
    assert SurfaceSound(s.writes, s.surf[i], Upto(s.srvVer, |s.surf|, i));
    UpdateSafe(cfg, s, |s.surf|, i, sf);
    var s1 := Update(s, i, sf);
    if sf.connected && ev.version > sf.version {
      if ev.SnapshotEvent? {
        SnapshotSafe(cfg, s1, d);
      } else if ev.version == sf.version + 1 && !sf.gap {
        DeltaSafe(cfg, s1, d);
      } else {
        GapSafe(cfg, s1, i, ev.version);
      }
    }
  }

  lemma TakeSorted(q: seq<Delivery>, idx: nat)
    requires Sorted(q) && idx < |q|
    ensures Sorted(q[..idx] + q[idx + 1..])
  {
    var r := q[..idx] + q[idx + 1..];
    forall i | 0 <= i < |r| ensures r[i] == q[if i < idx then i else i + 1] {
    }
  }

  lemma ProcessSafe(cfg: Config, s: State, idx: nat)
    requires Safe(cfg, s, |s.surf|) && idx < |s.queue| && Addressed(s)
    ensures Safe(cfg, Process(cfg, s, idx), |s.surf|)
  {
    var d := s.queue[idx];
    var s1 := Taken(s, idx);
    TakeSorted(s.queue, idx);
    assert Safe(cfg, s1, |s.surf|);
    assert Faithful(cfg, s.writes, s.seqNo, d);
    match d.payload
    case Reconnection => ReconnectSafe(cfg, s1, d.surface);
    case Carry(_) => DeliverSafe(cfg, s1, d);
  }
}
