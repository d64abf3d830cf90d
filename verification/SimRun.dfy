/** Whole runs.  Every invariant of the kernel, kept by every step, lifted to
    the states a run goes through, and the theorems about complete runs. */
module SimRun {
  import opened SimModel
  import opened SimSafety
  import opened SimRecovery
  import opened SimBooks
  import opened SimStream
  import opened SimTrace
  import opened SimActions

  ghost predicate Inv(cfg: Config, s: State, fanned: nat) {
    && Safe(cfg, s, fanned)
    && Recoverable(cfg, s, fanned)
    && Balanced(cfg, s)
    && Conserved(s)
    && Timely(cfg, s)
    && WithinBudget(cfg, s, fanned)
    && Buffered(cfg, s)
    && Current(s)
    && Acted(s, fanned)
    && (LossFree(cfg) ==> InStep(s, fanned))
    && (JoinOnly(cfg) ==> Joined(s))
  }

  ghost predicate Stable(cfg: Config, s: State) {
    Inv(cfg, s, |s.surf|) && |s.surf| == cfg.surfaces && Addressed(s)
  }

  // ------------------------------------------------------------------- one step

  lemma FateInv(cfg: Config, s: State, i: nat, d: Delivery, ev: Event, fate: Fate)
    requires Normalised(cfg) && i < |s.surf| && Possible(cfg, s.surf[i], fate)
    requires s.step == s.srvVer == ev.version && s.srvVer >= 1
    requires Faithful(cfg, s.writes, d.seqNo + 1, d) && d.surface == i && d.payload == Carry(ev)
    requires Inv(cfg, s, i)
    ensures Inv(cfg, ApplyFate(cfg, s, i, ev, fate), i + 1)
  {
    FateSafe(cfg, s, i, d, ev, fate);
    FateRecoverable(cfg, s, i, ev, fate);
    if fate.Sent? {
      SentBalanced(cfg, s, i, ev, fate.delay, fate.twice);
    } else {
      LostBalanced(cfg, s, i, ev, fate);
    }
    FateConserved(cfg, s, i, ev, fate);
    FateTimely(cfg, s, i, ev, fate);
    FateBudget(cfg, s, i, ev, fate);
    FateBuffered(cfg, s, i, ev, fate);
    FateCurrent(cfg, s, i, ev, fate);
    FateActed(cfg, s, i, ev, fate);
    if LossFree(cfg) { FateInStep(cfg, s, i, ev, fate); }
    if JoinOnly(cfg) { FateJoined(cfg, s, i, ev, fate); }
  }

  /** How much of the random source has been used matters to no invariant. */
  lemma PosInv(cfg: Config, s: State, fanned: nat, pos: nat)
    requires Inv(cfg, s, fanned)
    ensures Inv(cfg, s.(pos := pos), fanned)
  {
    var r := s.(pos := pos);
    assert Recoverable(cfg, r, fanned) by {
      forall i | 0 <= i < |r.surf| ensures Covered(cfg, r.queue, r.surf[i], i, Upto(r.srvVer, fanned, i)) {
        assert Covered(cfg, s.queue, s.surf[i], i, Upto(s.srvVer, fanned, i));
      }
    }
    assert Timely(cfg, r) by {
      forall d | d in r.queue ensures OnTime(cfg, r, d) {
        assert OnTime(cfg, s, d);
      }
    }
    if LossFree(cfg) {
      forall i | 0 <= i < |r.surf| ensures Tracking(r, r.surf[i], i, fanned) {
        assert Tracking(s, s.surf[i], i, fanned);
      }
    }
  }

  lemma BeginCovers(cfg: Config, s: State, key: nat)
    requires Recoverable(cfg, s, |s.surf|)
    ensures Recoverable(cfg, BeginWrite(s.(step := s.step + 1), key), 0)
  {
    var r := BeginWrite(s.(step := s.step + 1), key);
    forall j | 0 <= j < |r.surf| ensures Covered(cfg, r.queue, r.surf[j], j, Upto(r.srvVer, 0, j)) {
      assert Covered(cfg, s.queue, s.surf[j], j, Upto(s.srvVer, |s.surf|, j));
    }
  }

  /** The announcement of a write, apart from what it says about surfaces. */
  lemma BeginBooks(cfg: Config, s: State, key: nat)
    requires Balanced(cfg, s) && Conserved(s) && Buffered(cfg, s) && (JoinOnly(cfg) ==> Joined(s))
    ensures var r := BeginWrite(s.(step := s.step + 1), key);
      Balanced(cfg, r) && Conserved(r) && Buffered(cfg, r) && Current(r) && (JoinOnly(cfg) ==> Joined(r))
  {
    var r := BeginWrite(s.(step := s.step + 1), key);
    EmitCounts(s.(step := s.step + 1, srvVer := r.srvVer, srvData := r.srvData, writes := r.writes),
               ActWrite, -1, r.srvVer);
    assert Conserved(r);
  }

  lemma BeginInv(cfg: Config, s: State, key: nat)
    requires Stable(cfg, s) && NothingDue(s) && s.step == s.srvVer
    ensures Inv(cfg, BeginWrite(s.(step := s.step + 1), key), 0)
  {
    assert Acted(s.(step := s.step + 1), |s.surf|);
    assert Safe(cfg, s.(step := s.step + 1), |s.surf|);
    hide Safe, Recoverable, Balanced, Conserved, Timely, Buffered, Current, Acted, InStep, Joined, BeginWrite;
    BeginSafe(cfg, s.(step := s.step + 1), key);
    BeginCovers(cfg, s, key);
    BeginBooks(cfg, s, key);
    BeginTimely(cfg, s, key);
    BeginBudget(cfg, s.(step := s.step + 1), key);
    BeginActed(s.(step := s.step + 1), key);
    if LossFree(cfg) { BeginInStep(cfg, s, key); }
  }

  lemma ProcessInv(cfg: Config, s: State, idx: nat)
    requires Stable(cfg, s) && idx < |s.queue| && Due(s.queue[idx], s.step)
    ensures Stable(cfg, Process(cfg, s, idx))
  {
    ProcessSafe(cfg, s, idx);
    ProcessRecoverable(cfg, s, idx);
    assert Faithful(cfg, s.writes, s.seqNo, s.queue[idx]);
    ProcessBalanced(cfg, s, idx);
    ProcessConserved(cfg, s, idx);
    ProcessTimely(cfg, s, idx);
    ProcessBudget(cfg, s, idx);
    ProcessBuffered(cfg, s, idx);
    HandleCurrent(cfg, Taken(s, idx), s.queue[idx]);
    ProcessShrinks(cfg, s, idx);
    ProcessActed(cfg, s, idx);
    if LossFree(cfg) { ProcessInStep(cfg, s, idx); }
    if JoinOnly(cfg) { ProcessJoined(cfg, s, idx); }
  }

  lemma TickInv(cfg: Config, s: State)
    requires Stable(cfg, s) && NothingDue(s) && |s.queue| > 0
    ensures Stable(cfg, s.(step := s.step + 1))
  {
    var r := s.(step := s.step + 1);
    TickTimely(cfg, s);
    if LossFree(cfg) { InStepSettled(cfg, s); }
    assert Recoverable(cfg, r, |r.surf|) by {
      forall i | 0 <= i < |r.surf| ensures Covered(cfg, r.queue, r.surf[i], i, Upto(r.srvVer, |r.surf|, i)) {
        assert Covered(cfg, s.queue, s.surf[i], i, Upto(s.srvVer, |s.surf|, i));
      }
    }
  }

  // ----------------------------------------------------------------- whole runs

  lemma Readdressed(cfg: Config, writes: seq<Write>, d: Delivery, i: nat)
    requires Faithful(cfg, writes, d.seqNo + 1, d) && i < cfg.surfaces
    ensures Faithful(cfg, writes, d.seqNo + 1, d.(surface := i))
  {
  }

  /** One surface's share of the fan-out. */
  lemma FanOutInv(cfg: Config, tape: Tape, s: State, i: nat, d: Delivery)
    requires Normalised(cfg) && i < |s.surf| == cfg.surfaces && d.payload.Carry?
    requires s.step == s.srvVer == d.payload.ev.version && s.srvVer >= 1
    requires Faithful(cfg, s.writes, d.seqNo + 1, d) && d.surface == i
    requires Inv(cfg, s, i)
    ensures Inv(cfg, FanOut(cfg, tape, s, i, d.payload.ev), i + 1)
  {
    hide Inv, ApplyFate, Faithful, DrawFate, Possible;
    var (fate, pos) := DrawFate(cfg, tape, s.pos, s.surf[i]);
    PosInv(cfg, s, i, pos);
    FateInv(cfg, s.(pos := pos), i, d, d.payload.ev, fate);
  }

  lemma FanOutFrame(cfg: Config, tape: Tape, s: State, i: nat, ev: Event)
    requires Normalised(cfg) && i < |s.surf|
    ensures var r := FanOut(cfg, tape, s, i, ev);
      r.step == s.step && r.srvVer == s.srvVer && r.writes == s.writes && |r.surf| == |s.surf|
  {
  }

  lemma {:induction false} FanOutToInv(cfg: Config, tape: Tape, s: State, d: Delivery, n: nat)
    requires Normalised(cfg) && n <= |s.surf| == cfg.surfaces && d.payload.Carry?
    requires s.step == s.srvVer == d.payload.ev.version && s.srvVer >= 1
    requires Faithful(cfg, s.writes, d.seqNo + 1, d)
    requires Inv(cfg, s, 0)
    ensures var r := FanOutTo(cfg, tape, s, d.payload.ev, n);
      Inv(cfg, r, n) && r.step == s.step && r.srvVer == s.srvVer && r.writes == s.writes
  {
    hide Inv, FanOut, Faithful;
    if n > 0 {
      FanOutToInv(cfg, tape, s, d, n - 1);
      var s1 := FanOutTo(cfg, tape, s, d.payload.ev, n - 1);
      Readdressed(cfg, s.writes, d, n - 1);
      FanOutFrame(cfg, tape, s1, n - 1, d.payload.ev);
      FanOutInv(cfg, tape, s1, n - 1, d.(surface := n - 1));
    }
  }

  /** The fan-out of a write that has just been announced. */
  lemma SpreadInv(cfg: Config, tape: Tape, s: State, key: nat)
    requires Normalised(cfg) && |s.surf| == cfg.surfaces
    requires Stable(cfg, s) && NothingDue(s) && s.step == s.srvVer
    ensures var s1 := BeginWrite(s.(step := s.step + 1), key);
      var r := FanOutTo(cfg, tape, s1, LatestEvent(cfg, s1, key), cfg.surfaces);
      Inv(cfg, r, cfg.surfaces) && r.step == r.srvVer == s.srvVer + 1
  {
    BeginInv(cfg, s, key);
    var s1 := BeginWrite(s.(step := s.step + 1), key);
    var d := Delivery(0, 0, 0, Carry(LatestEvent(cfg, s1, key)));
    assert Safe(cfg, s.(step := s.step + 1), |s.surf|);
    LatestFaithful(cfg, s.(step := s.step + 1), key, d);
    hide Inv, Stable, Faithful, FanOutTo, Safe, NothingDue;
    FanOutToInv(cfg, tape, s1, d, cfg.surfaces);
  }

  lemma ApplyWriteInv(cfg: Config, tape: Tape, s: State)
    requires Normalised(cfg) && |s.surf| == cfg.surfaces && Addressed(s)
    requires Stable(cfg, s) && NothingDue(s) && s.step == s.srvVer
    ensures var r := ApplyWrite(cfg, tape, s.(step := s.step + 1));
      Stable(cfg, r) && r.step == r.srvVer == s.srvVer + 1
  {
    hide Inv, FanOutTo;
    var key := tape.number(s.pos) % cfg.keyspace;
    PosInv(cfg, s, |s.surf|, s.pos + 1);
    SpreadInv(cfg, tape, s.(pos := s.pos + 1), key);
    ApplyWriteAddressed(cfg, tape, s.(step := s.step + 1));
  }

  lemma ProcessFrame(cfg: Config, s: State, idx: nat)
    requires Addressed(s) && idx < |s.queue|
    ensures var r := Process(cfg, s, idx);
      r.step == s.step && r.srvVer == s.srvVer && r.writes == s.writes
  {
  }

  lemma {:induction false} DrainInv(cfg: Config, s: State)
    requires Stable(cfg, s) && Addressed(s)
    ensures var r := Drain(cfg, s);
      Stable(cfg, r) && r.step == s.step && r.srvVer == s.srvVer && r.writes == s.writes
    decreases Work(s.queue)
  {
    hide Stable, Process, Addressed;
    var idx := FirstDue(s.queue, s.step);
    if idx < |s.queue| {
      ProcessShrinks(cfg, s, idx);
      ProcessFrame(cfg, s, idx);
      ProcessInv(cfg, s, idx);
      DrainInv(cfg, Process(cfg, s, idx));
    }
  }

  lemma {:induction false} SettleInv(cfg: Config, s: State)
    requires Stable(cfg, s) && Addressed(s) && NothingDue(s)
    ensures var r := Settle(cfg, s);
      Stable(cfg, r) && s.step <= r.step && r.srvVer == s.srvVer && r.writes == s.writes
    decreases Work(s.queue), Wait(s)
  {
    hide Stable, Addressed, NothingDue, Drain, Work, Wait;
    if |s.queue| > 0 {
      AdvanceProgress(cfg, s);
      TickInv(cfg, s);
      TickAddressed(s);
      DrainInv(cfg, s.(step := s.step + 1));
      SettleInv(cfg, Advance(cfg, s));
    }
  }

  lemma TickAddressed(s: State)
    requires Addressed(s)
    ensures Addressed(s.(step := s.step + 1))
  {
  }

  /** The state once surfaces 0, ..., n-1 have hydrated from the empty map. */
  ghost predicate Connected(cfg: Config, s: State, n: nat) {
    && Safe(cfg, s, |s.surf|) && Balanced(cfg, s) && Acted(s, |s.surf|) && (n > 0 ==> Current(s))
    && s.step == s.srvVer == 0 && s.queue == [] && s.handled == [] && s.sched == [] && s.seqNo == 0
    && (forall i :: 0 <= i < |s.surf| ==>
          s.surf[i] == Surface(true, 0, map[], 0, false, if i < n then [0] else []))
  }

  lemma HydrateConnected(cfg: Config, s: State, i: nat)
    requires i < |s.surf| && Connected(cfg, s, i)
    ensures Connected(cfg, Emit(Hydrate(s, i), ActHydrate, i, s.srvVer), i + 1)
  {
    HydrateSafe(cfg, s, i);
    EmitSafe(cfg, Hydrate(s, i), |s.surf|, ActHydrate, i, s.srvVer);
    EmitCounts(Hydrate(s, i), ActHydrate, i, s.srvVer);
    HydrateActed(s, i);
    assert s.srvData == map[];
  }

  lemma FreshConnected(cfg: Config)
    requires Normalised(cfg)
    ensures Connected(cfg, Fresh(cfg), 0)
  {
    var r := Fresh(cfg);
    assert SurfacesSound(r.writes, r.surf, |r.surf|);
  }

  lemma {:induction false} ConnectInv(cfg: Config, n: nat)
    requires Normalised(cfg) && n <= cfg.surfaces
    ensures Connected(cfg, Connect(Fresh(cfg), n), n)
  {
    hide Connected, Emit, Hydrate;
    if n == 0 {
      FreshConnected(cfg);
    } else {
      ConnectInv(cfg, n - 1);
      HydrateConnected(cfg, Connect(Fresh(cfg), n - 1), n - 1);
    }
  }

  lemma ConnectedStable(cfg: Config, s: State)
    requires Normalised(cfg) && Connected(cfg, s, |s.surf|)
    ensures Stable(cfg, s)
  {
    hide Balanced, TraceOrdered, InstantsSound;
    assert Recoverable(cfg, s, |s.surf|);
    assert Conserved(s) by { assert Deliveries(s.handled) == []; }
    assert InStep(s, |s.surf|) by { assert UpFrom0(0) == [0]; }
  }

  lemma ConnectedInv(cfg: Config)
    requires Normalised(cfg)
    ensures var r := Connect(Fresh(cfg), cfg.surfaces); Stable(cfg, r) && r.step == r.srvVer == 0
  {
    ConnectInv(cfg, cfg.surfaces);
    var r := Connect(Fresh(cfg), cfg.surfaces);
    assert r.step == r.srvVer == 0;
    hide Connected, Connect, Stable;
    ConnectedStable(cfg, r);
  }

  lemma {:induction false} AfterWritesInv(cfg: Config, tape: Tape, n: nat)
    requires Normalised(cfg)
    ensures var r := AfterWrites(cfg, tape, n); Stable(cfg, r) && r.step == r.srvVer == n
  {
    hide Stable, ApplyWrite, Drain, NothingDue, Addressed, Connect, Fresh;
    if n == 0 {
      ConnectedInv(cfg);
    } else {
      AfterWritesInv(cfg, tape, n - 1);
      var s := AfterWrites(cfg, tape, n - 1);
      ApplyWriteInv(cfg, tape, s);
      TickAddressed(s);
      ApplyWriteAddressed(cfg, tape, s.(step := s.step + 1));
      DrainInv(cfg, ApplyWrite(cfg, tape, s.(step := s.step + 1)));
    }
  }

  lemma SettledInv(cfg: Config, tape: Tape)
    requires Normalised(cfg)
    ensures var r := Settled(cfg, tape); Stable(cfg, r) && r.srvVer == WriteCount(cfg) <= r.step
  {
    hide Stable, AfterWrites;
    AfterWritesInv(cfg, tape, WriteCount(cfg));
    SettleInv(cfg, AfterWrites(cfg, tape, WriteCount(cfg)));
  }
}
