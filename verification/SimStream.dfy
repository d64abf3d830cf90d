/** What the stream alone achieves, without any reconnect: exact tracking on a
    network that loses and delays nothing, and last-write-wins delivery of
    snapshots whatever is dropped, delayed or duplicated. */
module SimStream {
  import opened SimModel
  import opened SimSafety
  import opened SimRecovery
  import opened SimBooks

  // ------------------------------------------------- a network without losses

  /** No drops, delays or partitions; duplicates are allowed. */
  predicate LossFree(cfg: Config) {
    cfg.faults.dropRate <= 0.0 && cfg.faults.delayRate <= 0.0 && cfg.faults.partitionRate <= 0.0
  }

  function UpFrom0(v: nat): seq<nat> { seq(v + 1, k => k) }

  /** Surface i has applied every version in turn and waits at most for the
      latest one, which is queued for it once the fan-out has reached it. */
  ghost predicate Tracking(s: State, sf: Surface, i: nat, fanned: nat) {
    && sf.connected && !sf.gap
    && sf.history == UpFrom0(sf.version)
    && (sf.version == s.srvVer || sf.version == s.srvVer - 1)
    && (i < fanned && sf.version != s.srvVer ==> HasEvent(s.queue, i, s.srvVer))
    && (i >= fanned ==> sf.version != s.srvVer && sf.buf == 0)
  }

  ghost predicate InStep(s: State, fanned: nat) {
    && s.step == s.srvVer
    && (forall d :: d in s.queue ==> Due(d, s.step) && d.payload.Carry? && d.payload.ev.version == s.srvVer)
    && (forall i :: 0 <= i < |s.surf| ==> Tracking(s, s.surf[i], i, fanned))
  }

  /** An event that is sent at once. */
  lemma SentInStep(cfg: Config, s: State, i: nat, ev: Event, twice: bool)
    requires i < |s.surf| && ev.version == s.srvVer && InStep(s, i)
    ensures InStep(ApplyFate(cfg, s, i, ev, Sent(0, twice)), i + 1)
  {
    var r := ApplyFate(cfg, s, i, ev, Sent(0, twice));
    assert Tracking(s, s.surf[i], i, i);
    assert r.queue[|s.queue|] in r.queue;
    forall j | 0 <= j < |r.surf| ensures Tracking(r, r.surf[j], j, i + 1) {
      assert Tracking(s, s.surf[j], j, i);
      assert HasEvent(s.queue, j, s.srvVer) ==> HasEvent(r.queue, j, s.srvVer);
    }
  }

  lemma FateInStep(cfg: Config, s: State, i: nat, ev: Event, fate: Fate)
    requires Normalised(cfg) && LossFree(cfg) && i < |s.surf| && Possible(cfg, s.surf[i], fate)
    requires ev.version == s.srvVer && InStep(s, i)
    ensures InStep(ApplyFate(cfg, s, i, ev, fate), i + 1)
  {
    assert Tracking(s, s.surf[i], i, i);
    assert fate == Sent(0, fate.twice);
    hide ApplyFate, InStep;
    SentInStep(cfg, s, i, ev, fate.twice);
  }

  lemma HasMember(q: seq<Delivery>)
    ensures q == [] || exists d :: d in q
  {
    if q != [] {
      assert q[0] in q;
    }
  }

  /** Once nothing is due, nothing is queued and every surface is up to date. */
  lemma InStepSettled(cfg: Config, s: State)
    requires InStep(s, |s.surf|) && NothingDue(s)
    ensures s.queue == []
    ensures forall i :: 0 <= i < |s.surf| ==> !Lagging(s, i) && s.surf[i].history == UpFrom0(s.srvVer)
  {
    HasMember(s.queue);
    forall i | 0 <= i < |s.surf| ensures !Lagging(s, i) && s.surf[i].history == UpFrom0(s.srvVer) {
      assert Tracking(s, s.surf[i], i, |s.surf|);
    }
  }

  lemma BeginInStep(cfg: Config, s: State, key: nat)
    requires InStep(s, |s.surf|) && NothingDue(s) && Buffered(cfg, s)
    ensures InStep(BeginWrite(s.(step := s.step + 1), key), 0)
  {
    InStepSettled(cfg, s);
    var r := BeginWrite(s.(step := s.step + 1), key);
    forall i | 0 <= i < |r.surf| ensures Tracking(r, r.surf[i], i, 0) {
      assert Tracking(s, s.surf[i], i, |s.surf|);
      assert s.surf[i].buf <= InFlight(s.queue, i);
    }
  }

  lemma ProcessInStep(cfg: Config, s: State, idx: nat)
    requires Safe(cfg, s, |s.surf|) && idx < |s.queue| && Addressed(s)
    requires InStep(s, |s.surf|)
    ensures InStep(Process(cfg, s, idx), |s.surf|)
  {
    var d := s.queue[idx];
    var rest := s.queue[..idx] + s.queue[idx + 1..];
    var r := Process(cfg, s, idx);
    var i, ev := d.surface, d.payload.ev;
    assert Faithful(cfg, s.writes, s.seqNo, d);
    assert Tracking(s, s.surf[i], i, |s.surf|);
    assert r.queue == rest && r.surf[i].version == s.srvVer;
    assert UpFrom0(s.srvVer) == UpFrom0(s.srvVer - 1) + [s.srvVer];
    forall j | 0 <= j < |r.surf| ensures Tracking(r, r.surf[j], j, |s.surf|) {
      assert Tracking(s, s.surf[j], j, |s.surf|);
      if j != i && s.surf[j].version != s.srvVer {
        var e :| e in s.queue && e.surface == j && e.payload.Carry? && e.payload.ev.version == s.srvVer;
        TakeKeeps(s.queue, idx, e);
      }
    }
  }

  // ---------------------------------------------------------- snapshots, a join

  /** Snapshot events, no recovery, surfaces that always stay connected. */
  predicate JoinOnly(cfg: Config) {
    cfg.semantics == Snapshot && !cfg.resync && cfg.faults.partitionRate <= 0.0
  }

  /** A snapshot of version v was scheduled for surface i. */
  ghost predicate Offered(sched: seq<Delivery>, i: nat, v: int) {
    exists d :: d in sched && d.surface == i && d.payload.Carry? && d.payload.ev.version == v
  }

  /** What is scheduled is queued, or no newer than what its surface shows. */
  ghost predicate Absorbed(s: State) {
    && (forall d :: d in s.queue ==> d in s.sched)
    && (forall d :: d in s.sched && d.surface < |s.surf| && d.payload.Carry? ==>
          d in s.queue || d.payload.ev.version <= s.surf[d.surface].version)
  }

  ghost predicate Joined(s: State) {
    && (forall i :: 0 <= i < |s.surf| ==>
          s.surf[i].connected && (s.surf[i].version == 0 || Offered(s.sched, i, s.surf[i].version)))
    && Absorbed(s)
  }

  lemma FateJoined(cfg: Config, s: State, i: nat, ev: Event, fate: Fate)
    requires JoinOnly(cfg) && i < |s.surf| && Possible(cfg, s.surf[i], fate) && Joined(s)
    ensures Joined(ApplyFate(cfg, s, i, ev, fate))
  {
    var r := ApplyFate(cfg, s, i, ev, fate);
    forall j | 0 <= j < |r.surf| && r.surf[j].version != 0 ensures Offered(r.sched, j, r.surf[j].version) {
      var d :| d in s.sched && d.surface == j && d.payload.Carry? && d.payload.ev.version == s.surf[j].version;
      assert d in r.sched;
    }
  }

  lemma ProcessAbsorbed(cfg: Config, s: State, idx: nat)
    requires JoinOnly(cfg) && Safe(cfg, s, |s.surf|) && idx < |s.queue| && Addressed(s)
    requires Absorbed(s) && s.surf[s.queue[idx].surface].connected
    ensures Absorbed(Process(cfg, s, idx))
  {
    var d := s.queue[idx];
    var rest := s.queue[..idx] + s.queue[idx + 1..];
    var r := Process(cfg, s, idx);
    assert Faithful(cfg, s.writes, s.seqNo, d);
    assert r.sched == s.sched && r.queue == rest;
    forall e | e in s.sched && e.surface < |s.surf| && e.payload.Carry?
      ensures e in r.queue || e.payload.ev.version <= r.surf[e.surface].version
    {
      if e in s.queue && e != d {
        TakeKeeps(s.queue, idx, e);
      }
    }
  }

  lemma ProcessJoined(cfg: Config, s: State, idx: nat)
    requires JoinOnly(cfg) && Safe(cfg, s, |s.surf|) && idx < |s.queue| && Addressed(s) && Joined(s)
    ensures Joined(Process(cfg, s, idx))
  {
    var d := s.queue[idx];
    var r := Process(cfg, s, idx);
    ProcessAbsorbed(cfg, s, idx);
    assert Faithful(cfg, s.writes, s.seqNo, d);
    assert d in s.sched && r.sched == s.sched;
    forall j | 0 <= j < |r.surf| && r.surf[j].version != 0 ensures Offered(r.sched, j, r.surf[j].version) {
      assert s.surf[j].version == 0 || Offered(s.sched, j, s.surf[j].version);
    }
  }

  /** v is the largest version scheduled for surface i, 0 if there is none. */
  ghost predicate IsLargestOffered(sched: seq<Delivery>, i: nat, v: nat) {
    && (v == 0 || Offered(sched, i, v))
    && (forall w :: Offered(sched, i, w) ==> w <= v)
  }

  lemma JoinedAtRest(s: State, i: nat)
    requires Joined(s) && s.queue == [] && i < |s.surf|
    ensures IsLargestOffered(s.sched, i, s.surf[i].version)
  {
    forall w | Offered(s.sched, i, w) ensures w <= s.surf[i].version {
      var d :| d in s.sched && d.surface == i && d.payload.Carry? && d.payload.ev.version == w;
    }
  }
}
