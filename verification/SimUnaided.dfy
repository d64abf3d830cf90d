/** What the network does without resync: the exact configurations under which no
    draw whatever leaves a surface behind for good. */
module SimUnaided {
  import opened SimModel
  import opened SimSafety
  import opened SimRecovery
  import opened SimBooks
  import opened SimStream
  import opened SimRun
  import opened SimTrace
  import opened SimActions
  import opened SimTheorems
  import opened Invariants

  function Least(a: int, b: int): int { if a <= b then a else b }

  /** Nothing is ever lost, and nothing overtakes what it depends on: there are no
      drops and no partitions, the buffer holds all that can be delayed at a time,
      and deltas, if there are several, are delayed by one step at most. */
  predicate Robust(cfg: Config) {
    || cfg.writes <= 0
    || (&& cfg.faults.dropRate <= 0.0 && cfg.faults.partitionRate <= 0.0
        && cfg.buffer > Least(MaxDelay(cfg), cfg.writes - 1)
        && (cfg.semantics == Snapshot || cfg.writes == 1 || MaxDelay(cfg) <= 1))
  }

  // --------------------------------------------- a robust network loses nothing

  /** The versions in flight for surface i. */
  function Waiting(q: seq<Delivery>, i: nat): set<nat> {
    set d | d in q && d.payload.Carry? && d.surface == i :: d.payload.ev.version
  }

  ghost predicate VersionSorted(q: seq<Delivery>) {
    forall a, b :: 0 <= a < b < |q| && q[a].payload.Carry? && q[b].payload.Carry? ==>
      q[a].payload.ev.version <= q[b].payload.ev.version
  }

  /** Surface i is in good order, and has the latest version or has it coming. */
  ghost predicate Flows(s: State, i: nat, fanned: nat)
    requires i < |s.surf|
  {
    var sf, upto := s.surf[i], Upto(s.srvVer, fanned, i);
    && sf.connected && !sf.gap && sf.buf <= |Waiting(s.queue, i)|
    && (sf.version < upto ==> HasEvent(s.queue, i, upto))
  }

  ghost predicate Flowing(s: State, fanned: nat) {
    && (forall i :: 0 <= i < |s.surf| ==> Flows(s, i, fanned))
    && VersionSorted(s.queue)
    && (forall d :: d in s.queue ==>
          d.payload.Carry? && 1 <= d.payload.ev.version <= Upto(s.srvVer, fanned, d.surface))
  }

  /** The numbers from lo up to but not including hi. */
  function Interval(lo: nat, hi: nat): (r: set<nat>)
    ensures forall v :: v in r <==> lo <= v < hi
    ensures lo <= hi ==> |r| == hi - lo
    decreases hi
  {
    if lo >= hi then {} else Interval(lo, hi - 1) + {hi - 1}
  }

  lemma SubsetSize(a: set<nat>, b: set<nat>)
    requires a <= b
    ensures |a| <= |b|
  {
    assert b == a + (b - a);
  }

  /** Versions in flight were written no longer ago than the largest delay. */
  lemma WaitingIsShort(cfg: Config, s: State, i: nat)
    requires Timely(cfg, s) && Flowing(s, i) && s.step == s.srvVer >= 1
    ensures |Waiting(s.queue, i)| <= Least(MaxDelay(cfg), s.srvVer - 1)
  {
    var lo := if s.srvVer - MaxDelay(cfg) > 1 then s.srvVer - MaxDelay(cfg) else 1;
    forall d | d in s.queue && d.payload.Carry? && d.surface == i ensures lo <= d.payload.ev.version < s.srvVer {
      assert OnTime(cfg, s, d);
    }
    SubsetSize(Waiting(s.queue, i), Interval(lo, s.srvVer));
  }

  lemma WaitingGrows(q: seq<Delivery>, d: Delivery, i: nat)
    requires d.payload.Carry?
    ensures Waiting(q + [d], i) == if d.surface == i then Waiting(q, i) + {d.payload.ev.version} else Waiting(q, i)
  {
    assert forall e :: e in q + [d] <==> e in q || e == d;
    if d.surface == i {
      assert d in q + [d];
    }
  }

  /** What a sent event puts on the queue: one copy or two. */
  lemma SentQueue(cfg: Config, s: State, i: nat, ev: Event, delay: nat, twice: bool)
    requires i < |s.surf|
    ensures var r := ApplyFate(cfg, s, i, ev, Sent(delay, twice));
      var d := Delivery(s.step + delay, s.seqNo, i, Carry(ev));
      var e := Delivery(s.step + delay, s.seqNo + 1, i, Carry(ev));
      && r.queue == (if twice then s.queue + [d] + [e] else s.queue + [d])
      && d in r.queue && (forall x :: x in s.queue ==> x in r.queue)
      && (forall x :: x in r.queue ==>
            x in s.queue || (x.at == s.step + delay && x.surface == i && x.payload == Carry(ev)))
      && r.surf == s.surf[i := s.surf[i].(buf := s.surf[i].buf + 1)]
      && r.step == s.step && r.srvVer == s.srvVer && r.writes == s.writes
  {
    var r := ApplyFate(cfg, s, i, ev, Sent(delay, twice));
    assert r.queue[|s.queue|] == Delivery(s.step + delay, s.seqNo, i, Carry(ev));
  }

  lemma HasEventGrows(q: seq<Delivery>, r: seq<Delivery>, i: nat, v: int)
    requires HasEvent(q, i, v) && forall d :: d in q ==> d in r
    ensures HasEvent(r, i, v)
  {
  }

  lemma SentFlows(cfg: Config, s: State, i: nat, ev: Event, delay: nat, twice: bool, j: nat)
    requires i < |s.surf| && ev.version == s.srvVer >= 1 && Flowing(s, i) && j < |s.surf|
    ensures var r := ApplyFate(cfg, s, i, ev, Sent(delay, twice)); |r.surf| == |s.surf| && Flows(r, j, i + 1)
  {
    var d := Delivery(s.step + delay, s.seqNo, i, Carry(ev));
    var e := Delivery(s.step + delay, s.seqNo + 1, i, Carry(ev));
    SentQueue(cfg, s, i, ev, delay, twice);
    var r := ApplyFate(cfg, s, i, ev, Sent(delay, twice));
    WaitingGrows(s.queue, d, j);
    WaitingGrows(s.queue + [d], e, j);
    assert s.srvVer !in Waiting(s.queue, i);
    assert Flows(s, j, i);
    hide Waiting, ApplyFate;
    if j == i {
      assert HasEvent(r.queue, i, s.srvVer);
    } else if HasEvent(s.queue, j, Upto(s.srvVer, i, j)) {
      HasEventGrows(s.queue, r.queue, j, Upto(s.srvVer, i, j));
    }
  }

  lemma SentFlowing(cfg: Config, s: State, i: nat, ev: Event, delay: nat, twice: bool)
    requires i < |s.surf| && ev.version == s.srvVer >= 1 && Flowing(s, i)
    ensures Flowing(ApplyFate(cfg, s, i, ev, Sent(delay, twice)), i + 1)
  {
    var r := ApplyFate(cfg, s, i, ev, Sent(delay, twice));
    SentQueue(cfg, s, i, ev, delay, twice);
    var n := i + 1;
    hide ApplyFate, Flows;
    forall j | 0 <= j < |r.surf| ensures Flows(r, j, n) {
      SentFlows(cfg, s, i, ev, delay, twice, j);
    }
  }

  /** Under a robust configuration every event is sent. */
  lemma RobustSends(cfg: Config, s: State, i: nat, fate: Fate)
    requires Robust(cfg) && 1 <= s.srvVer <= cfg.writes && s.step == s.srvVer
    requires Timely(cfg, s) && Flowing(s, i) && i < |s.surf| && Possible(cfg, s.surf[i], fate)
    ensures fate.Sent?
  {
    WaitingIsShort(cfg, s, i);
    assert Flows(s, i, i);
    hide Waiting;
  }

  // ------------------------------------------------------------------- delivery

  lemma WaitingTake(q: seq<Delivery>, idx: nat, i: nat)
    requires idx < |q|
    ensures |Waiting(q, i)| <= |Waiting(q[..idx] + q[idx + 1..], i)| + if q[idx].surface == i then 1 else 0
  {
    var d, rest := q[idx], q[..idx] + q[idx + 1..];
    var w := Waiting(rest, i);
    forall e | e in q && e.payload.Carry? && e.surface == i
      ensures e.payload.ev.version in w || (d.surface == i && d.payload.Carry? && e == d)
    {
      if e != d {
        TakeKeeps(q, idx, e);
      }
    }
    if d.surface == i && d.payload.Carry? {
      SubsetSize(Waiting(q, i), w + {d.payload.ev.version});
    } else {
      SubsetSize(Waiting(q, i), w);
    }
  }

  /** What was written before the first due event is not due. */
  lemma OlderIsNotDue(s: State, idx: nat, e: Delivery)
    requires Flowing(s, |s.surf|) && idx == FirstDue(s.queue, s.step) < |s.queue|
    requires e in s.queue && e.payload.ev.version < s.queue[idx].payload.ev.version
    ensures !Due(e, s.step)
  {
    var k :| 0 <= k < |s.queue| && s.queue[k] == e;
  }

  /** With deltas delayed by one step at most, the first due one is the next one. */
  lemma FirstDueIsNext(cfg: Config, s: State, idx: nat)
    requires Robust(cfg) && 1 <= s.srvVer <= cfg.writes && cfg.semantics == Delta
    requires Stable(cfg, s) && Flowing(s, |s.surf|) && idx == FirstDue(s.queue, s.step) < |s.queue|
    ensures s.queue[idx].payload.ev.version <= s.surf[s.queue[idx].surface].version + 1
  {
    var d := s.queue[idx];
    var i := d.surface;
    var u := s.surf[i].version;
    assert Flows(s, i, |s.surf|);
    assert Covered(cfg, s.queue, s.surf[i], i, Upto(s.srvVer, |s.surf|, i));
    assert u + 1 < d.payload.ev.version ==> HasEvent(s.queue, i, u + 1);
    if HasEvent(s.queue, i, u + 1) {
      var e :| e in s.queue && e.surface == i && e.payload.Carry? && e.payload.ev.version == u + 1;
      assert OnTime(cfg, s, e);
      if u + 1 < d.payload.ev.version {
        OlderIsNotDue(s, idx, e);
      }
    }
  }

  /** Delivering an event that is not ahead of its turn. */
  lemma DeliverInTurn(cfg: Config, s: State, i: nat, ev: Event)
    requires i < |s.surf| && s.surf[i].connected && !s.surf[i].gap
    requires ev.DeltaEvent? ==> ev.version <= s.surf[i].version + 1
    ensures var r := Deliver(cfg, s, i, ev);
      && r.queue == s.queue && r.srvVer == s.srvVer && |r.surf| == |s.surf|
      && r.surf[i].connected && !r.surf[i].gap
      && r.surf[i].version == (if ev.version > s.surf[i].version then ev.version else s.surf[i].version)
      && r.surf[i].buf == (if s.surf[i].buf > 0 then s.surf[i].buf - 1 else 0)
      && (forall j :: 0 <= j < |s.surf| && j != i ==> r.surf[j] == s.surf[j])
  {
  }

  /** What the first due item does to its own surface. */
  lemma ProcessFirstDue(cfg: Config, s: State, idx: nat)
    requires Robust(cfg) && 1 <= s.srvVer <= cfg.writes
    requires Stable(cfg, s) && Flowing(s, |s.surf|) && idx == FirstDue(s.queue, s.step) < |s.queue|
    ensures var r, i, v := Process(cfg, s, idx), s.queue[idx].surface, s.queue[idx].payload.ev.version;
      && |r.surf| == |s.surf| && r.srvVer == s.srvVer && r.queue == s.queue[..idx] + s.queue[idx + 1..]
      && r.surf[i].connected && !r.surf[i].gap
      && r.surf[i].version == (if v > s.surf[i].version then v else s.surf[i].version)
      && r.surf[i].buf == (if s.surf[i].buf > 0 then s.surf[i].buf - 1 else 0)
      && (forall j :: 0 <= j < |s.surf| && j != i ==> r.surf[j] == s.surf[j])
  {
    var d := s.queue[idx];
    assert Flows(s, d.surface, |s.surf|);
    assert Faithful(cfg, s.writes, s.seqNo, d);
    if cfg.semantics == Delta {
      FirstDueIsNext(cfg, s, idx);
    }
    DeliverInTurn(cfg, Taken(s, idx), d.surface, d.payload.ev);
    hide Deliver, Inv, FirstDue, Flowing, Robust;
  }

  lemma ProcessFlows(cfg: Config, s: State, idx: nat, j: nat)
    requires Robust(cfg) && 1 <= s.srvVer <= cfg.writes
    requires Stable(cfg, s) && Flowing(s, |s.surf|) && idx == FirstDue(s.queue, s.step) < |s.queue| && j < |s.surf|
    ensures var r := Process(cfg, s, idx);
      && |r.surf| == |s.surf| && r.srvVer == s.srvVer && r.queue == s.queue[..idx] + s.queue[idx + 1..]
      && Flows(r, j, |s.surf|)
  {
    var d := s.queue[idx];
    var rest := s.queue[..idx] + s.queue[idx + 1..];
    assert Flows(s, j, |s.surf|);
    assert d.surface < |s.surf| && d.payload.Carry?;
    ProcessFirstDue(cfg, s, idx);
    WaitingTake(s.queue, idx, j);
    hide Waiting, Process, Stable, FirstDue, Flowing, Robust;
    if HasEvent(s.queue, j, s.srvVer) {
      var e :| e in s.queue && e.surface == j && e.payload.Carry? && e.payload.ev.version == s.srvVer;
      if e != d {
        TakeKeeps(s.queue, idx, e);
        assert HasEvent(rest, j, s.srvVer);
      }
    }
  }

  lemma RestSorted(q: seq<Delivery>, idx: nat)
    requires idx < |q| && VersionSorted(q)
    ensures VersionSorted(q[..idx] + q[idx + 1..])
    ensures forall d :: d in q[..idx] + q[idx + 1..] ==> d in q
  {
  }

  lemma ProcessFlowing(cfg: Config, s: State, idx: nat)
    requires Robust(cfg) && 1 <= s.srvVer <= cfg.writes
    requires Stable(cfg, s) && Flowing(s, |s.surf|) && idx == FirstDue(s.queue, s.step) < |s.queue|
    ensures Flowing(Process(cfg, s, idx), |s.surf|)
  {
    FirstDueAddressed(cfg, s, idx);
    RestSorted(s.queue, idx);
    var n := |s.surf|;
    hide Process, Flows, Stable, FirstDue, VersionSorted, Robust, Addressed;
    forall j | 0 <= j < n ensures |Process(cfg, s, idx).surf| == n && Flows(Process(cfg, s, idx), j, n) {
      ProcessFlows(cfg, s, idx, j);
    }
    ProcessFlows(cfg, s, idx, s.queue[idx].surface);
  }

  lemma FirstDueAddressed(cfg: Config, s: State, idx: nat)
    requires Stable(cfg, s) && idx < |s.queue|
    ensures Addressed(s) && s.queue[idx].surface < |s.surf|
  {
    hide Inv;
  }

  // ----------------------------------------------------------------- whole runs

  lemma BeginFlowing(s: State, key: nat)
    requires Flowing(s, |s.surf|) && Addressed(s)
    ensures Flowing(BeginWrite(s.(step := s.step + 1), key), 0)
  {
    var r := BeginWrite(s.(step := s.step + 1), key);
    forall i | 0 <= i < |r.surf| ensures Flows(r, i, 0) {
      assert Flows(s, i, |s.surf|);
    }
  }

  /** Neither the clock nor the random source matters to what flows. */
  lemma ClockFlowing(s: State, pos: nat, step: int, n: nat)
    requires Flowing(s, n)
    ensures Flowing(s.(pos := pos, step := step), n)
  {
    var r := s.(pos := pos, step := step);
    forall j | 0 <= j < |s.surf| ensures Flows(r, j, n) {
      assert Flows(s, j, n);
    }
  }

  lemma InvTimely(cfg: Config, s: State, n: nat)
    requires Inv(cfg, s, n)
    ensures Timely(cfg, s)
  {
    hide Safe, Recoverable, Balanced, Conserved, Timely, WithinBudget, Buffered, Current, Acted, InStep, Joined;
  }

  lemma FanOutFlowing(cfg: Config, tape: Tape, s: State, i: nat, ev: Event)
    requires Normalised(cfg) && Robust(cfg) && 1 <= s.srvVer <= cfg.writes && i < |s.surf|
    requires s.step == s.srvVer == ev.version && Timely(cfg, s) && Flowing(s, i)
    ensures Flowing(FanOut(cfg, tape, s, i, ev), i + 1)
  {
    var (fate, pos) := DrawFate(cfg, tape, s.pos, s.surf[i]);
    RobustSends(cfg, s, i, fate);
    ClockFlowing(s, pos, s.step, i);
    hide DrawFate, ApplyFate, Flowing, Timely;
    SentFlowing(cfg, s.(pos := pos), i, ev, fate.delay, fate.twice);
  }

  lemma {:induction false} FanOutToFlowing(cfg: Config, tape: Tape, s: State, d: Delivery, n: nat)
    requires Normalised(cfg) && n <= |s.surf| == cfg.surfaces && d.payload.Carry?
    requires s.step == s.srvVer == d.payload.ev.version && Robust(cfg) && 1 <= s.srvVer <= cfg.writes
    requires Faithful(cfg, s.writes, d.seqNo + 1, d)
    requires Inv(cfg, s, 0) && Flowing(s, 0)
    ensures Flowing(FanOutTo(cfg, tape, s, d.payload.ev, n), n)
  {
    hide Inv, FanOut, Faithful, Flowing, Robust, Timely;
    if n > 0 {
      FanOutToFlowing(cfg, tape, s, d, n - 1);
      FanOutToInv(cfg, tape, s, d, n - 1);
      var s1 := FanOutTo(cfg, tape, s, d.payload.ev, n - 1);
      InvTimely(cfg, s1, n - 1);
      FanOutFlowing(cfg, tape, s1, n - 1, d.payload.ev);
    }
  }

  /** The fan-out of a write that has just been announced. */
  lemma SpreadFlowing(cfg: Config, tape: Tape, s: State, key: nat)
    requires Normalised(cfg) && Robust(cfg) && s.srvVer < cfg.writes
    requires Stable(cfg, s) && NothingDue(s) && s.step == s.srvVer && Flowing(s, |s.surf|)
    ensures var s1 := BeginWrite(s.(step := s.step + 1), key);
      Flowing(FanOutTo(cfg, tape, s1, LatestEvent(cfg, s1, key), cfg.surfaces), cfg.surfaces)
  {
    BeginInv(cfg, s, key);
    BeginFlowing(s, key);
    var s1 := BeginWrite(s.(step := s.step + 1), key);
    var d := Delivery(0, 0, 0, Carry(LatestEvent(cfg, s1, key)));
    assert Safe(cfg, s.(step := s.step + 1), |s.surf|);
    LatestFaithful(cfg, s.(step := s.step + 1), key, d);
    hide Inv, Stable, Faithful, FanOutTo, Safe, NothingDue, Flowing, Robust;
    FanOutToFlowing(cfg, tape, s1, d, cfg.surfaces);
  }

  lemma ApplyWriteFlowing(cfg: Config, tape: Tape, s: State)
    requires Normalised(cfg) && |s.surf| == cfg.surfaces && Robust(cfg) && s.srvVer < cfg.writes
    requires Stable(cfg, s) && NothingDue(s) && s.step == s.srvVer && Flowing(s, |s.surf|)
    ensures Flowing(ApplyWrite(cfg, tape, s.(step := s.step + 1)), |s.surf|)
  {
    hide Inv, FanOutTo, Flowing, Robust;
    var key := tape.number(s.pos) % cfg.keyspace;
    PosInv(cfg, s, |s.surf|, s.pos + 1);
    ClockFlowing(s, s.pos + 1, s.step, |s.surf|);
    SpreadFlowing(cfg, tape, s.(pos := s.pos + 1), key);
  }

  lemma {:induction false} DrainFlowing(cfg: Config, s: State)
    requires Robust(cfg) && 1 <= s.srvVer <= cfg.writes && Stable(cfg, s) && Addressed(s) && Flowing(s, |s.surf|)
    ensures Flowing(Drain(cfg, s), |s.surf|)
    decreases Work(s.queue)
  {
    var idx := FirstDue(s.queue, s.step);
    if idx < |s.queue| {
      ProcessShrinks(cfg, s, idx);
      ProcessFrame(cfg, s, idx);
      ProcessInv(cfg, s, idx);
      ProcessFlowing(cfg, s, idx);
      hide Stable, Process, Addressed, Flowing, Robust;
      DrainFlowing(cfg, Process(cfg, s, idx));
    }
  }

  lemma {:induction false} SettleFlowing(cfg: Config, s: State)
    requires Robust(cfg) && 1 <= s.srvVer <= cfg.writes
    requires Stable(cfg, s) && Addressed(s) && NothingDue(s) && Flowing(s, |s.surf|)
    ensures Flowing(Settle(cfg, s), |s.surf|)
    decreases Work(s.queue), Wait(s)
  {
    hide Stable, Addressed, NothingDue, Drain, Work, Wait, Flowing, Robust;
    if |s.queue| > 0 {
      var s1 := s.(step := s.step + 1);
      ClockFlowing(s, s.pos, s.step + 1, |s.surf|);
      AdvanceProgress(cfg, s);
      TickInv(cfg, s);
      TickAddressed(s);
      DrainInv(cfg, s1);
      DrainFlowing(cfg, s1);
      SettleFlowing(cfg, Advance(cfg, s));
    }
  }

  /** Before the first write. */
  lemma AtStart(cfg: Config, tape: Tape)
    requires Normalised(cfg)
    ensures var s := AfterWrites(cfg, tape, 0);
      && s.queue == [] && |s.surf| == cfg.surfaces
      && forall i :: 0 <= i < |s.surf| ==>
        s.surf[i].connected && s.surf[i].buf == 0 && s.surf[i].version == 0 && !s.surf[i].gap
  {
    ConnectInv(cfg, cfg.surfaces);
    var s := AfterWrites(cfg, tape, 0);
    assert Connected(cfg, s, cfg.surfaces);
    hide Connect, Fresh, Safe, Balanced, Current, Acted;
  }

  lemma StartsFlowing(cfg: Config, tape: Tape)
    requires Normalised(cfg)
    ensures Flowing(AfterWrites(cfg, tape, 0), cfg.surfaces)
  {
    AtStart(cfg, tape);
    AfterWritesInv(cfg, tape, 0);
    var s := AfterWrites(cfg, tape, 0);
    hide AfterWrites, Stable;
    forall i | 0 <= i < |s.surf| ensures Flows(s, i, cfg.surfaces) {
      assert s.surf[i].version == 0 && s.surf[i].buf == 0;
    }
  }

  lemma WriteStepFlowing(cfg: Config, tape: Tape, s: State)
    requires Normalised(cfg) && |s.surf| == cfg.surfaces && Addressed(s) && Robust(cfg) && s.srvVer < cfg.writes
    requires Stable(cfg, s) && NothingDue(s) && s.step == s.srvVer && Flowing(s, cfg.surfaces)
    ensures Flowing(WriteStep(cfg, tape, s), cfg.surfaces)
  {
    hide Stable, ApplyWrite, Drain, NothingDue, Addressed, Flowing, Robust;
    ApplyWriteInv(cfg, tape, s);
    TickAddressed(s);
    ApplyWriteAddressed(cfg, tape, s.(step := s.step + 1));
    ApplyWriteFlowing(cfg, tape, s);
    DrainFlowing(cfg, ApplyWrite(cfg, tape, s.(step := s.step + 1)));
  }

  lemma {:induction false} AfterWritesFlowing(cfg: Config, tape: Tape, n: nat)
    requires Normalised(cfg) && Robust(cfg) && n <= WriteCount(cfg)
    ensures Flowing(AfterWrites(cfg, tape, n), cfg.surfaces)
  {
    hide Stable, WriteStep, NothingDue, Addressed, Connect, Fresh, Flowing, Robust;
    if n == 0 {
      StartsFlowing(cfg, tape);
    } else {
      AfterWritesFlowing(cfg, tape, n - 1);
      AfterWritesInv(cfg, tape, n - 1);
      WriteStepFlowing(cfg, tape, AfterWrites(cfg, tape, n - 1));
    }
  }

  /** A robust configuration needs no resync: no draw makes it diverge. */
  lemma RobustConverges(c: Config, tape: Tape)
    requires Robust(Normal(c))
    ensures AllCaughtUp(Settled(Normal(c), tape))
  {
    var cfg := Normal(c);
    var s := Settled(cfg, tape);
    FinalStable(cfg, tape);
    SettledInv(cfg, tape);
    if WriteCount(cfg) > 0 {
      AfterWritesFlowing(cfg, tape, WriteCount(cfg));
      AfterWritesInv(cfg, tape, WriteCount(cfg));
      hide Stable, AfterWrites, Flowing, Settle;
      SettleFlowing(cfg, AfterWrites(cfg, tape, WriteCount(cfg)));
    }
    FlowingIsCaughtUp(cfg, s);
  }

  lemma FlowingIsCaughtUp(cfg: Config, s: State)
    requires Stable(cfg, s) && s.queue == [] && (s.srvVer > 0 ==> Flowing(s, |s.surf|))
    ensures AllCaughtUp(s)
  {
    hide Inv;
    forall i | 0 <= i < |s.surf| ensures !Lagging(s, i) && s.surf[i].data == s.srvData {
      SoundAt(cfg, s, i);
      if s.srvVer > 0 {
        assert Flows(s, i, |s.surf|);
      }
      assert s.writes[..s.srvVer] == s.writes;
    }
  }

  lemma SoundAt(cfg: Config, s: State, i: nat)
    requires Stable(cfg, s) && i < |s.surf|
    ensures SurfaceSound(s.writes, s.surf[i], s.srvVer)
    ensures |s.writes| == s.srvVer && s.srvData == Replay(s.writes)
  {
    assert SurfaceSound(s.writes, s.surf[i], Upto(|s.writes|, |s.surf|, i));
  }
}
