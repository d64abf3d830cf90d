/** Without resync, draws that leave a surface behind for good: one sequence for
    each way in which a configuration can fail to be robust. */
module SimDivergence {
  import opened SimModel
  import opened SimSafety
  import opened SimRecovery
  import opened SimBooks
  import opened SimStream
  import opened SimRun
  import opened SimTrace
  import opened SimActions
  import opened SimTheorems
  import opened SimUnaided
  import opened SimDraws
  import opened Invariants

  // ------------------------------------------------------- how runs end up behind

  /** A run that leaves the first surface behind is reported. */
  lemma BehindIsReported(cfg: Config, tape: Tape)
    requires Normalised(cfg) && Settled(cfg, tape).surf[0].version < WriteCount(cfg)
    ensures Finish(Final(cfg, tape)).violations != []
  {
    FinalStable(cfg, tape);
    var s := Final(cfg, tape);
    assert !Presents(Server(s), ViewsOf(s.surf)[0]);
    hide Final, Settled, Finish;
    StableReports(cfg, s);
  }

  lemma DrainNothing(cfg: Config, s: State)
    requires Addressed(s) && NothingDue(s)
    ensures Drain(cfg, s) == s
  {
    assert forall k :: 0 <= k < |s.queue| ==> s.queue[k] in s.queue;
  }

  /** The first surface has not seen version w, and will not. */
  ghost predicate Deaf(s: State, w: nat) {
    && |s.surf| > 0 && s.surf[0].version < w
    && forall d :: d in s.queue ==> d.payload.Carry? && d.payload.ev.version < w
  }

  lemma ProcessDeaf(cfg: Config, s: State, idx: nat, w: nat)
    requires !cfg.resync && Addressed(s) && idx < |s.queue| && Deaf(s, w)
    ensures Deaf(Process(cfg, s, idx), w)
  {
    var d := s.queue[idx];
    HandleEffect(cfg, Taken(s, idx), d);
    assert Process(cfg, s, idx).queue == s.queue[..idx] + s.queue[idx + 1..];
  }

  lemma {:induction false} DrainDeaf(cfg: Config, s: State, w: nat)
    requires !cfg.resync && Addressed(s) && Deaf(s, w)
    ensures Deaf(Drain(cfg, s), w)
    decreases Work(s.queue)
  {
    hide Process, Deaf, Addressed;
    var idx := FirstDue(s.queue, s.step);
    if idx < |s.queue| {
      ProcessShrinks(cfg, s, idx);
      ProcessDeaf(cfg, s, idx, w);
      DrainDeaf(cfg, Process(cfg, s, idx), w);
    }
  }

  lemma TickDeaf(s: State, w: nat)
    requires Deaf(s, w)
    ensures Deaf(s.(step := s.step + 1), w)
  {
  }

  lemma {:induction false} SettleDeaf(cfg: Config, s: State, w: nat)
    requires !cfg.resync && Addressed(s) && NothingDue(s) && Deaf(s, w)
    ensures Deaf(Settle(cfg, s), w)
    decreases Work(s.queue), Wait(s)
  {
    hide Drain, Work, Wait, Deaf, Addressed, NothingDue;
    if |s.queue| > 0 {
      TickDeaf(s, w);
      AdvanceProgress(cfg, s);
      TickAddressed(s);
      DrainDeaf(cfg, s.(step := s.step + 1), w);
      SettleDeaf(cfg, Advance(cfg, s), w);
    }
  }

  // ------------------------------------------------------- drops and partitions

  /** No event has reached, or is on its way to, any surface. */
  ghost predicate Silent(s: State) {
    s.queue == [] && forall j :: 0 <= j < |s.surf| ==> s.surf[j].version == 0
  }

  /** Every draw hits that can: some fault takes every event. */
  ghost predicate AllHit(cfg: Config, tape: Tape) {
    && (forall p :: tape.coin(p) == 0.0)
    && (cfg.faults.dropRate > 0.0 || cfg.faults.partitionRate > 0.0)
  }

  lemma FanOutSilent(cfg: Config, tape: Tape, s: State, i: nat, ev: Event)
    requires Normalised(cfg) && !cfg.resync && i < |s.surf| && AllHit(cfg, tape) && Silent(s)
    ensures Silent(FanOut(cfg, tape, s, i, ev))
  {
    var fate := DrawFate(cfg, tape, s.pos, s.surf[i]).0;
    assert !fate.Sent?;
  }

  lemma {:induction false} FanOutToSilent(cfg: Config, tape: Tape, s: State, ev: Event, n: nat)
    requires Normalised(cfg) && !cfg.resync && n <= |s.surf| && AllHit(cfg, tape) && Silent(s)
    ensures Silent(FanOutTo(cfg, tape, s, ev, n))
  {
    hide FanOut, Silent, AllHit;
    if n > 0 {
      FanOutToSilent(cfg, tape, s, ev, n - 1);
      FanOutSilent(cfg, tape, FanOutTo(cfg, tape, s, ev, n - 1), n - 1, ev);
    }
  }

  lemma WriteStepSilent(cfg: Config, tape: Tape, s: State)
    requires Normalised(cfg) && |s.surf| == cfg.surfaces && Addressed(s)
    requires !cfg.resync && AllHit(cfg, tape) && Silent(s)
    ensures Silent(WriteStep(cfg, tape, s))
  {
    WriteStepIs(cfg, tape, s);
    var key := tape.number(s.pos) % cfg.keyspace;
    var s1 := BeginWrite(s.(step := s.step + 1, pos := s.pos + 1), key);
    var r := FanOutTo(cfg, tape, s1, LatestEvent(cfg, s1, key), cfg.surfaces);
    hide FanOutTo, Drain, AllHit, WriteStep, BeginWrite, LatestEvent;
    FanOutToSilent(cfg, tape, s1, LatestEvent(cfg, s1, key), cfg.surfaces);
    DrainNothing(cfg, r);
  }

  lemma {:induction false} AfterWritesSilent(cfg: Config, tape: Tape, n: nat)
    requires Normalised(cfg) && !cfg.resync && AllHit(cfg, tape)
    ensures Silent(AfterWrites(cfg, tape, n))
  {
    if n == 0 {
      AtStart(cfg, tape);
    } else {
      hide WriteStep, Silent, AllHit;
      AfterWritesSilent(cfg, tape, n - 1);
      WriteStepSilent(cfg, tape, AfterWrites(cfg, tape, n - 1));
    }
  }

  lemma LossyDiverges(cfg: Config, tape: Tape)
    requires Normalised(cfg) && !cfg.resync && cfg.writes >= 1 && AllHit(cfg, tape)
    ensures Settled(cfg, tape).surf[0].version < WriteCount(cfg)
  {
    hide AfterWrites, AllHit;
    AfterWritesSilent(cfg, tape, WriteCount(cfg));
  }

  // ----------------------------------------------------------------- quiet writes

  /** Only delays and duplicates can happen. */
  predicate Lossless(cfg: Config) {
    cfg.faults.dropRate <= 0.0 && cfg.faults.partitionRate <= 0.0 && cfg.faults.delayRate > 0.0
  }

  /** How much of the random source an event takes for one surface. */
  function Draws(cfg: Config, late: bool): nat {
    1 + (if late then 1 else 0) + (if cfg.faults.duplicateRate > 0.0 then 1 else 0)
  }

  /** The fate of an event that finds room, by the coin for its delay. */
  lemma FateOf(cfg: Config, tape: Tape, pos: nat, sf: Surface)
    requires Normalised(cfg) && Lossless(cfg) && sf.connected
    ensures var (fate, p) := DrawFate(cfg, tape, pos, sf);
      if sf.buf >= cfg.buffer then fate == BufferFull && p == pos
      else if tape.coin(pos) < cfg.faults.delayRate then
        fate == Sent(1 + tape.number(pos + 1) % cfg.faults.delayMax, fate.twice) && p == pos + Draws(cfg, true)
      else fate == Sent(0, fate.twice) && p == pos + Draws(cfg, false)
  {
  }

  lemma FanOutQuiet(cfg: Config, tape: Tape, s: State, i: nat, ev: Event)
    requires Normalised(cfg) && Lossless(cfg) && i < |s.surf| && InStep(s, i) && ev.version == s.srvVer
    requires tape.coin(s.pos) >= cfg.faults.delayRate
    ensures var r := FanOut(cfg, tape, s, i, ev); InStep(r, i + 1) && r.pos == s.pos + Draws(cfg, false)
  {
    assert Tracking(s, s.surf[i], i, i);
    FateOf(cfg, tape, s.pos, s.surf[i]);
    var (fate, pos) := DrawFate(cfg, tape, s.pos, s.surf[i]);
    PosInStep(s, pos, i);
    hide DrawFate, InStep;
    SentInStep(cfg, s.(pos := pos), i, ev, fate.twice);
  }

  lemma PosInStep(s: State, pos: nat, n: nat)
    requires InStep(s, n)
    ensures InStep(s.(pos := pos), n)
  {
    forall i | 0 <= i < |s.surf| ensures Tracking(s.(pos := pos), s.surf[i], i, n) {
      assert Tracking(s, s.surf[i], i, n);
    }
  }

  /** The next n draws on the delay coin miss. */
  ghost predicate Misses(cfg: Config, tape: Tape, lo: nat, hi: nat) {
    forall p :: lo <= p < hi ==> tape.coin(p) >= cfg.faults.delayRate
  }

  lemma {:induction false} FanOutToQuiet(cfg: Config, tape: Tape, s: State, ev: Event, n: nat)
    requires Normalised(cfg) && Lossless(cfg) && n <= |s.surf| && InStep(s, 0) && ev.version == s.srvVer
    requires Misses(cfg, tape, s.pos, s.pos + n * Draws(cfg, false))
    ensures var r := FanOutTo(cfg, tape, s, ev, n);
      InStep(r, n) && r.pos == s.pos + n * Draws(cfg, false) && r.srvVer == s.srvVer
  {
    hide FanOut, InStep, Lossless;
    if n > 0 {
      assert n * Draws(cfg, false) == (n - 1) * Draws(cfg, false) + Draws(cfg, false);
      FanOutToQuiet(cfg, tape, s, ev, n - 1);
      var s1 := FanOutTo(cfg, tape, s, ev, n - 1);
      FanOutFrame(cfg, tape, s1, n - 1, ev);
      FanOutQuiet(cfg, tape, s1, n - 1, ev);
    }
  }

  lemma ProcessPos(cfg: Config, s: State, idx: nat)
    requires idx < |s.queue| && Addressed(s)
    ensures Process(cfg, s, idx).pos == s.pos
  {
  }

  lemma {:induction false} DrainPos(cfg: Config, s: State)
    requires Addressed(s)
    ensures Drain(cfg, s).pos == s.pos
    decreases Work(s.queue)
  {
    hide Process, Addressed;
    var idx := FirstDue(s.queue, s.step);
    if idx < |s.queue| {
      ProcessShrinks(cfg, s, idx);
      ProcessPos(cfg, s, idx);
      DrainPos(cfg, Process(cfg, s, idx));
    }
  }

  lemma {:induction false} DrainInStep(cfg: Config, s: State)
    requires Stable(cfg, s) && Addressed(s) && InStep(s, |s.surf|)
    ensures InStep(Drain(cfg, s), |s.surf|)
    decreases Work(s.queue)
  {
    var idx := FirstDue(s.queue, s.step);
    if idx < |s.queue| {
      ProcessShrinks(cfg, s, idx);
      ProcessInv(cfg, s, idx);
      ProcessInStep(cfg, s, idx);
      hide Stable, Process, Addressed, InStep;
      DrainInStep(cfg, Process(cfg, s, idx));
    }
  }

  /** How much of the random source a quiet write takes. */
  function QuietDraws(cfg: Config): nat
    requires Normalised(cfg)
  {
    1 + cfg.surfaces * Draws(cfg, false)
  }

  lemma BegunInStep(cfg: Config, s: State, key: nat)
    requires Stable(cfg, s) && InStep(s, |s.surf|) && NothingDue(s)
    ensures InStep(BeginWrite(s.(step := s.step + 1, pos := s.pos + 1), key), 0)
  {
    PosInStep(s, s.pos + 1, |s.surf|);
    PosInv(cfg, s, |s.surf|, s.pos + 1);
    assert Buffered(cfg, s.(pos := s.pos + 1));
    hide InStep, Inv, Buffered;
    BeginInStep(cfg, s.(pos := s.pos + 1), key);
  }

  lemma WriteStepQuiet(cfg: Config, tape: Tape, s: State)
    requires Normalised(cfg) && |s.surf| == cfg.surfaces && Addressed(s) && Lossless(cfg)
    requires Stable(cfg, s) && NothingDue(s) && s.step == s.srvVer && InStep(s, cfg.surfaces)
    requires Misses(cfg, tape, s.pos, s.pos + QuietDraws(cfg))
    ensures var r := WriteStep(cfg, tape, s); InStep(r, cfg.surfaces) && r.pos == s.pos + QuietDraws(cfg)
  {
    hide Stable, FanOutTo, Drain, InStep, WriteStep, BeginWrite, LatestEvent, ApplyWrite, NothingDue, Addressed;
    hide Lossless, Draws;
    WriteStepIs(cfg, tape, s);
    var key := tape.number(s.pos) % cfg.keyspace;
    var s1 := BeginWrite(s.(step := s.step + 1, pos := s.pos + 1), key);
    var r := FanOutTo(cfg, tape, s1, LatestEvent(cfg, s1, key), cfg.surfaces);
    ApplyWriteInv(cfg, tape, s);
    BegunInStep(cfg, s, key);
    assert Misses(cfg, tape, s1.pos, s1.pos + cfg.surfaces * Draws(cfg, false));
    FanOutToQuiet(cfg, tape, s1, LatestEvent(cfg, s1, key), cfg.surfaces);
    DrainPos(cfg, r);
    DrainInStep(cfg, r);
  }

  lemma StartsInStep(cfg: Config, tape: Tape)
    requires Normalised(cfg)
    ensures var s := AfterWrites(cfg, tape, 0); InStep(s, cfg.surfaces) && s.pos == 0
  {
    ConnectInv(cfg, cfg.surfaces);
    var s := AfterWrites(cfg, tape, 0);
    assert Connected(cfg, s, cfg.surfaces);
    assert UpFrom0(0) == [0];
    ConnectPos(Fresh(cfg), cfg.surfaces);
    hide Connect, Safe, Balanced, Current, Acted;
  }

  lemma {:induction false} ConnectPos(s: State, n: nat)
    requires n <= |s.surf|
    ensures Connect(s, n).pos == s.pos
  {
    if n > 0 {
      ConnectPos(s, n - 1);
    }
  }

  /** While the delay coin misses, every write reaches every surface at once. */
  lemma {:induction false} QuietWrites(cfg: Config, tape: Tape, n: nat)
    requires Normalised(cfg) && Lossless(cfg) && Misses(cfg, tape, 0, n * QuietDraws(cfg))
    ensures var s := AfterWrites(cfg, tape, n); InStep(s, cfg.surfaces) && s.pos == n * QuietDraws(cfg)
  {
    hide Stable, WriteStep, InStep, Lossless, NothingDue, Addressed, QuietDraws;
    if n == 0 {
      StartsInStep(cfg, tape);
    } else {
      assert n * QuietDraws(cfg) == (n - 1) * QuietDraws(cfg) + QuietDraws(cfg);
      QuietWrites(cfg, tape, n - 1);
      AfterWritesInv(cfg, tape, n - 1);
      WriteStepQuiet(cfg, tape, AfterWrites(cfg, tape, n - 1));
    }
  }

  // ------------------------------------------------------------ a full buffer

  /** The delay coin hits between two positions, and delays are the longest. */
  ghost predicate Stalls(cfg: Config, tape: Tape, lo: nat, hi: nat) {
    && (forall p :: lo <= p < hi ==> tape.coin(p) < cfg.faults.delayRate)
    && (forall p :: tape.number(p) == cfg.faults.delayMax - 1)
  }

  /** How much of the random source a stalled write takes. */
  function LateDraws(cfg: Config): nat
    requires Normalised(cfg)
  {
    1 + cfg.surfaces * Draws(cfg, true)
  }

  /** Each surface shows version v and has k events waiting, the first fanned ones
      one more, all of them before version w and not due before step w. */
  ghost predicate Piling(s: State, v: nat, k: nat, fanned: nat, w: nat) {
    && v < w
    && (forall i :: 0 <= i < |s.surf| ==>
          && s.surf[i].connected && s.surf[i].version == v
          && s.surf[i].buf == if i < fanned then k + 1 else k)
    && (forall d :: d in s.queue ==> d.payload.Carry? && d.payload.ev.version < w && d.at >= w)
  }

  lemma FanOutPiles(cfg: Config, tape: Tape, s: State, i: nat, ev: Event, v: nat, k: nat, w: nat)
    requires Normalised(cfg) && Lossless(cfg) && i < |s.surf| && Piling(s, v, k, i, w)
    requires Stalls(cfg, tape, s.pos, s.pos + Draws(cfg, true))
    requires k < cfg.buffer && ev.version < w <= s.step + cfg.faults.delayMax
    ensures var r := FanOut(cfg, tape, s, i, ev); Piling(r, v, k, i + 1, w) && r.pos == s.pos + Draws(cfg, true)
  {
    FateOf(cfg, tape, s.pos, s.surf[i]);
    var (fate, pos) := DrawFate(cfg, tape, s.pos, s.surf[i]);
    assert fate.delay == cfg.faults.delayMax;
    SentQueue(cfg, s.(pos := pos), i, ev, fate.delay, fate.twice);
    SentPos(cfg, s.(pos := pos), i, ev, fate.delay, fate.twice);
    hide DrawFate, ApplyFate, Lossless, Draws;
  }

  lemma SentPos(cfg: Config, s: State, i: nat, ev: Event, delay: nat, twice: bool)
    requires i < |s.surf|
    ensures ApplyFate(cfg, s, i, ev, Sent(delay, twice)).pos == s.pos
  {
  }

  lemma {:induction false} FanOutToPiles(cfg: Config, tape: Tape, s: State, ev: Event, n: nat, v: nat, k: nat, w: nat)
    requires Normalised(cfg) && Lossless(cfg) && n <= |s.surf| && Piling(s, v, k, 0, w)
    requires Stalls(cfg, tape, s.pos, s.pos + n * Draws(cfg, true))
    requires k < cfg.buffer && ev.version < w <= s.step + cfg.faults.delayMax
    ensures var r := FanOutTo(cfg, tape, s, ev, n);
      Piling(r, v, k, n, w) && r.pos == s.pos + n * Draws(cfg, true) && r.step == s.step
  {
    hide FanOut, Piling, Lossless;
    if n > 0 {
      assert n * Draws(cfg, true) == (n - 1) * Draws(cfg, true) + Draws(cfg, true);
      FanOutToPiles(cfg, tape, s, ev, n - 1, v, k, w);
      var s1 := FanOutTo(cfg, tape, s, ev, n - 1);
      FanOutFrame(cfg, tape, s1, n - 1, ev);
      FanOutPiles(cfg, tape, s1, n - 1, ev, v, k, w);
    }
  }

  lemma PilingDone(s: State, v: nat, k: nat, w: nat)
    requires Piling(s, v, k, |s.surf|, w)
    ensures Piling(s, v, k + 1, 0, w)
    ensures s.step < w ==> NothingDue(s)
  {
  }

  lemma WriteStepPiles(cfg: Config, tape: Tape, s: State, v: nat, k: nat, w: nat)
    requires Normalised(cfg) && |s.surf| == cfg.surfaces && Addressed(s) && Lossless(cfg)
    requires Piling(s, v, k, 0, w) && k < cfg.buffer && s.step == s.srvVer
    requires Stalls(cfg, tape, s.pos, s.pos + LateDraws(cfg))
    requires s.step + 1 < w <= s.step + 1 + cfg.faults.delayMax
    ensures var r := WriteStep(cfg, tape, s); Piling(r, v, k + 1, 0, w) && r.pos == s.pos + LateDraws(cfg)
  {
    assert Stalls(cfg, tape, s.pos + 1, s.pos + 1 + cfg.surfaces * Draws(cfg, true));
    hide FanOutTo, Drain, WriteStep, BeginWrite, LatestEvent, ApplyWrite, NothingDue, Addressed;
    hide Lossless, Stalls, Draws;
    WriteStepIs(cfg, tape, s);
    var key := tape.number(s.pos) % cfg.keyspace;
    var s1 := BeginWrite(s.(step := s.step + 1, pos := s.pos + 1), key);
    var ev := LatestEvent(cfg, s1, key);
    var r := FanOutTo(cfg, tape, s1, ev, cfg.surfaces);
    assert Piling(s1, v, k, 0, w);
    hide Piling;
    FanOutToPiles(cfg, tape, s1, ev, cfg.surfaces, v, k, w);
    PilingDone(r, v, k, w);
    DrainNothing(cfg, r);
  }

  /** A full buffer takes no more. */
  lemma FanOutFull(cfg: Config, tape: Tape, s: State, i: nat, ev: Event, v: nat, w: nat)
    requires Normalised(cfg) && !cfg.resync && Lossless(cfg) && i < |s.surf| && Piling(s, v, cfg.buffer, 0, w)
    ensures Piling(FanOut(cfg, tape, s, i, ev), v, cfg.buffer, 0, w)
  {
    FateOf(cfg, tape, s.pos, s.surf[i]);
    hide DrawFate, Lossless;
  }

  lemma {:induction false} FanOutToFull(cfg: Config, tape: Tape, s: State, ev: Event, n: nat, v: nat, w: nat)
    requires Normalised(cfg) && !cfg.resync && Lossless(cfg) && n <= |s.surf| && Piling(s, v, cfg.buffer, 0, w)
    ensures Piling(FanOutTo(cfg, tape, s, ev, n), v, cfg.buffer, 0, w)
  {
    hide FanOut, Piling, Lossless;
    if n > 0 {
      FanOutToFull(cfg, tape, s, ev, n - 1, v, w);
      FanOutFull(cfg, tape, FanOutTo(cfg, tape, s, ev, n - 1), n - 1, ev, v, w);
    }
  }

  lemma WriteStepFull(cfg: Config, tape: Tape, s: State, v: nat, w: nat)
    requires Normalised(cfg) && |s.surf| == cfg.surfaces && Addressed(s) && Lossless(cfg) && !cfg.resync
    requires Piling(s, v, cfg.buffer, 0, w)
    ensures Deaf(WriteStep(cfg, tape, s), w)
  {
    hide FanOutTo, Drain, WriteStep, BeginWrite, LatestEvent, ApplyWrite, Addressed, Lossless;
    WriteStepIs(cfg, tape, s);
    var key := tape.number(s.pos) % cfg.keyspace;
    var s1 := BeginWrite(s.(step := s.step + 1, pos := s.pos + 1), key);
    var ev := LatestEvent(cfg, s1, key);
    var r := FanOutTo(cfg, tape, s1, ev, cfg.surfaces);
    assert Piling(s1, v, cfg.buffer, 0, w);
    FanOutToFull(cfg, tape, s1, ev, cfg.surfaces, v, w);
    assert Deaf(r, w);
    hide Piling, Deaf;
    DrainDeaf(cfg, r, w);
  }

  lemma PilesStart(cfg: Config, s: State, w: nat)
    requires Stable(cfg, s) && NothingDue(s) && InStep(s, |s.surf|) && s.srvVer < w
    ensures Piling(s, s.srvVer, 0, 0, w)
  {
    InStepSettled(cfg, s);
    forall i | 0 <= i < |s.surf| ensures s.surf[i].buf == 0 && s.surf[i].connected {
      assert Tracking(s, s.surf[i], i, |s.surf|);
      assert s.surf[i].buf <= InFlight(s.queue, i);
    }
  }

  /** Quiet writes, then k stalled ones. */
  lemma {:induction false} PileUp(cfg: Config, tape: Tape, n: nat, k: nat, w: nat)
    requires Normalised(cfg) && Lossless(cfg) && k <= cfg.buffer && n + k < w <= n + 1 + cfg.faults.delayMax
    requires Misses(cfg, tape, 0, n * QuietDraws(cfg))
    requires Stalls(cfg, tape, n * QuietDraws(cfg), n * QuietDraws(cfg) + k * LateDraws(cfg))
    ensures var s := AfterWrites(cfg, tape, n + k);
      Piling(s, n, k, 0, w) && s.pos == n * QuietDraws(cfg) + k * LateDraws(cfg)
  {
    hide Stable, WriteStep, Lossless, NothingDue, Addressed, QuietDraws, LateDraws, Misses, Piling, InStep;
    if k == 0 {
      AfterWritesInv(cfg, tape, n);
      QuietWrites(cfg, tape, n);
      PilesStart(cfg, AfterWrites(cfg, tape, n), w);
    } else {
      assert k * LateDraws(cfg) == (k - 1) * LateDraws(cfg) + LateDraws(cfg);
      PileUp(cfg, tape, n, k - 1, w);
      AfterWritesInv(cfg, tape, n + k - 1);
      WriteStepPiles(cfg, tape, AfterWrites(cfg, tape, n + k - 1), n, k - 1, w);
    }
  }

  /** With the buffers full at the last write, nobody hears of it. */
  lemma FullDiverges(cfg: Config, tape: Tape, n: nat)
    requires Normalised(cfg) && !cfg.resync && Lossless(cfg)
    requires n + cfg.buffer + 1 == cfg.writes && cfg.buffer <= cfg.faults.delayMax
    requires Misses(cfg, tape, 0, n * QuietDraws(cfg))
    requires Stalls(cfg, tape, n * QuietDraws(cfg), n * QuietDraws(cfg) + cfg.buffer * LateDraws(cfg))
    ensures Settled(cfg, tape).surf[0].version < WriteCount(cfg)
  {
    var w := WriteCount(cfg);
    hide Lossless, Misses, Stalls, QuietDraws, LateDraws, Piling, WriteStep, Settle, NothingDue, Addressed;
    PileUp(cfg, tape, n, cfg.buffer, w);
    WriteStepFull(cfg, tape, AfterWrites(cfg, tape, w - 1), n, w);
    SettleDeaf(cfg, AfterWrites(cfg, tape, w), w);
  }

  // ---------------------------------------------------------- deltas out of order

  lemma FanOutGap(cfg: Config, tape: Tape, s: State, i: nat, ev: Event)
    requires Normalised(cfg) && i < |s.surf| && s.surf[0].gap
    ensures FanOut(cfg, tape, s, i, ev).surf[0].gap
  {
    hide DrawFate;
  }

  lemma {:induction false} FanOutToGap(cfg: Config, tape: Tape, s: State, ev: Event, n: nat)
    requires Normalised(cfg) && n <= |s.surf| && |s.surf| > 0 && s.surf[0].gap
    ensures FanOutTo(cfg, tape, s, ev, n).surf[0].gap
  {
    hide FanOut;
    if n > 0 {
      FanOutToGap(cfg, tape, s, ev, n - 1);
      FanOutGap(cfg, tape, FanOutTo(cfg, tape, s, ev, n - 1), n - 1, ev);
    }
  }

  lemma ProcessGap(cfg: Config, s: State, idx: nat)
    requires Stable(cfg, s) && cfg.semantics == Delta && !cfg.resync && idx < |s.queue|
    requires |s.surf| > 0 && s.surf[0].gap
    ensures Process(cfg, s, idx).surf[0].gap
  {
    assert Faithful(cfg, s.writes, s.seqNo, s.queue[idx]);
  }

  lemma {:induction false} DrainGap(cfg: Config, s: State)
    requires Stable(cfg, s) && Addressed(s) && cfg.semantics == Delta && !cfg.resync
    requires |s.surf| > 0 && s.surf[0].gap
    ensures Drain(cfg, s).surf[0].gap
    decreases Work(s.queue)
  {
    hide Stable, Process, Addressed;
    var idx := FirstDue(s.queue, s.step);
    if idx < |s.queue| {
      ProcessShrinks(cfg, s, idx);
      ProcessInv(cfg, s, idx);
      ProcessGap(cfg, s, idx);
      DrainGap(cfg, Process(cfg, s, idx));
    }
  }

  lemma {:induction false} SettleGap(cfg: Config, s: State)
    requires Stable(cfg, s) && Addressed(s) && NothingDue(s) && cfg.semantics == Delta && !cfg.resync
    requires |s.surf| > 0 && s.surf[0].gap
    ensures Settle(cfg, s).surf[0].gap
    decreases Work(s.queue), Wait(s)
  {
    hide Stable, Addressed, NothingDue, Drain, Work, Wait;
    if |s.queue| > 0 {
      AdvanceProgress(cfg, s);
      TickInv(cfg, s);
      TickAddressed(s);
      DrainInv(cfg, s.(step := s.step + 1));
      DrainGap(cfg, s.(step := s.step + 1));
      SettleGap(cfg, Advance(cfg, s));
    }
  }

  lemma WriteStepGap(cfg: Config, tape: Tape, s: State)
    requires Normalised(cfg) && |s.surf| == cfg.surfaces && Addressed(s) && cfg.semantics == Delta && !cfg.resync
    requires Stable(cfg, s) && NothingDue(s) && s.step == s.srvVer && s.surf[0].gap
    ensures WriteStep(cfg, tape, s).surf[0].gap
  {
    hide Stable, FanOutTo, Drain, WriteStep, BeginWrite, LatestEvent, ApplyWrite, NothingDue, Addressed;
    WriteStepIs(cfg, tape, s);
    ApplyWriteInv(cfg, tape, s);
    var key := tape.number(s.pos) % cfg.keyspace;
    var s1 := BeginWrite(s.(step := s.step + 1, pos := s.pos + 1), key);
    FanOutToGap(cfg, tape, s1, LatestEvent(cfg, s1, key), cfg.surfaces);
    DrainGap(cfg, FanOutTo(cfg, tape, s1, LatestEvent(cfg, s1, key), cfg.surfaces));
  }

  lemma {:induction false} GapLasts(cfg: Config, tape: Tape, m: nat, n: nat)
    requires Normalised(cfg) && m <= n && cfg.semantics == Delta && !cfg.resync
    requires AfterWrites(cfg, tape, m).surf[0].gap
    ensures AfterWrites(cfg, tape, n).surf[0].gap
  {
    hide Stable, WriteStep, NothingDue, Addressed;
    if m < n {
      GapLasts(cfg, tape, m, n - 1);
      AfterWritesInv(cfg, tape, n - 1);
      WriteStepGap(cfg, tape, AfterWrites(cfg, tape, n - 1));
    }
  }

  /** A delta beyond the next one is due at the first surface, and nothing else is. */
  ghost predicate Overtaken(s: State) {
    && |s.surf| > 0
    && (s.surf[0].gap || (s.surf[0].connected && s.surf[0].version == 0
                          && exists d :: d in s.queue && d.surface == 0 && Due(d, s.step)))
    && (forall d :: d in s.queue && d.surface == 0 && Due(d, s.step) ==>
          d.payload.Carry? && d.payload.ev.version >= 2)
  }

  /** A delta beyond the next one opens a gap, and a gap stays open. */
  lemma DeliverBeyond(s: State, cfg: Config, ev: Event)
    requires |s.surf| > 0 && ev.DeltaEvent? && ev.version >= 2
    requires s.surf[0].gap || (s.surf[0].connected && s.surf[0].version == 0)
    ensures Deliver(cfg, s, 0, ev).surf[0].gap
  {
  }

  /** What the first due item does to the first surface. */
  lemma ProcessBeyond(cfg: Config, s: State, idx: nat)
    requires Stable(cfg, s) && cfg.semantics == Delta && !cfg.resync && Overtaken(s)
    requires idx == FirstDue(s.queue, s.step) < |s.queue|
    ensures var r := Process(cfg, s, idx);
      && |r.surf| == |s.surf| && r.queue == s.queue[..idx] + s.queue[idx + 1..] && r.step == s.step
      && if s.queue[idx].surface == 0 then r.surf[0].gap else r.surf[0] == s.surf[0]
  {
    var d := s.queue[idx];
    assert Faithful(cfg, s.writes, s.seqNo, d);
    HandleEffect(cfg, Taken(s, idx), d);
    hide Deliver, Inv, Aftermath;
    assert Aftermath(cfg, Taken(s, idx), d) == [] by {
      NoAftermath(cfg, Taken(s, idx), d);
    }
    if d.surface == 0 {
      DeliverBeyond(Taken(s, idx), cfg, d.payload.ev);
    }
  }

  lemma NoAftermath(cfg: Config, s: State, d: Delivery)
    requires !cfg.resync && d.surface < |s.surf|
    ensures Aftermath(cfg, s, d) == []
  {
  }

  lemma ProcessOvertaken(cfg: Config, s: State, idx: nat)
    requires Stable(cfg, s) && cfg.semantics == Delta && !cfg.resync && Overtaken(s)
    requires idx == FirstDue(s.queue, s.step) < |s.queue|
    ensures Overtaken(Process(cfg, s, idx))
  {
    ProcessBeyond(cfg, s, idx);
    hide Process, Stable, FirstDue, Addressed, Overtaken;
    StaysOvertaken(s, Process(cfg, s, idx), idx);
  }

  lemma StaysOvertaken(s: State, r: State, idx: nat)
    requires Overtaken(s) && idx < |s.queue| && |r.surf| == |s.surf|
    requires r.queue == s.queue[..idx] + s.queue[idx + 1..] && r.step == s.step
    requires if s.queue[idx].surface == 0 then r.surf[0].gap else r.surf[0] == s.surf[0]
    ensures Overtaken(r)
  {
    assert forall e :: e in r.queue ==> e in s.queue;
    if s.queue[idx].surface != 0 && !s.surf[0].gap {
      var e :| e in s.queue && e.surface == 0 && Due(e, s.step);
      TakeKeeps(s.queue, idx, e);
    }
  }

  lemma {:induction false} DrainOvertaken(cfg: Config, s: State)
    requires Stable(cfg, s) && Addressed(s) && cfg.semantics == Delta && !cfg.resync && Overtaken(s)
    ensures Drain(cfg, s).surf[0].gap
    decreases Work(s.queue)
  {
    var idx := FirstDue(s.queue, s.step);
    if idx < |s.queue| {
      ProcessShrinks(cfg, s, idx);
      ProcessInv(cfg, s, idx);
      ProcessOvertaken(cfg, s, idx);
      hide Stable, Process, Addressed, Overtaken;
      DrainOvertaken(cfg, Process(cfg, s, idx));
    }
  }

  lemma FanOutOvertakes(cfg: Config, tape: Tape, s: State, ev: Event)
    requires Normalised(cfg) && Lossless(cfg) && |s.surf| > 0 && Piling(s, 0, 1, 0, 3) && s.step == 2
    requires cfg.buffer >= 2 && ev.version == 2 && tape.coin(s.pos) >= cfg.faults.delayRate
    ensures Overtaken(FanOut(cfg, tape, s, 0, ev))
  {
    FateOf(cfg, tape, s.pos, s.surf[0]);
    var (fate, pos) := DrawFate(cfg, tape, s.pos, s.surf[0]);
    SentQueue(cfg, s.(pos := pos), 0, ev, 0, fate.twice);
    hide DrawFate, ApplyFate, Lossless, Draws;
  }

  lemma FanOutElsewhere(cfg: Config, tape: Tape, s: State, i: nat, ev: Event)
    requires Normalised(cfg) && 0 < i < |s.surf| && Overtaken(s)
    ensures Overtaken(FanOut(cfg, tape, s, i, ev))
  {
    var (fate, pos) := DrawFate(cfg, tape, s.pos, s.surf[i]);
    var s0 := s.(pos := pos);
    FateEffect(cfg, s0, i, ev, fate);
    assert forall d :: d in FateAdds(cfg, s0, i, ev, fate) ==> d.surface == i;
    hide DrawFate, ApplyFate, FateAdds;
  }

  lemma {:induction false} FanOutToOvertakes(cfg: Config, tape: Tape, s: State, ev: Event, n: nat)
    requires Normalised(cfg) && Lossless(cfg) && 1 <= n <= |s.surf| && Piling(s, 0, 1, 0, 3) && s.step == 2
    requires cfg.buffer >= 2 && ev.version == 2 && tape.coin(s.pos) >= cfg.faults.delayRate
    ensures Overtaken(FanOutTo(cfg, tape, s, ev, n))
  {
    hide FanOut, Overtaken, Piling, Lossless;
    if n == 1 {
      assert FanOutTo(cfg, tape, s, ev, 0) == s;
      FanOutOvertakes(cfg, tape, s, ev);
    } else {
      FanOutToOvertakes(cfg, tape, s, ev, n - 1);
      FanOutElsewhere(cfg, tape, FanOutTo(cfg, tape, s, ev, n - 1), n - 1, ev);
    }
  }

  lemma WriteStepOvertakes(cfg: Config, tape: Tape, s: State)
    requires Normalised(cfg) && |s.surf| == cfg.surfaces && Addressed(s) && Lossless(cfg)
    requires cfg.semantics == Delta && !cfg.resync && cfg.buffer >= 2
    requires Stable(cfg, s) && NothingDue(s) && s.step == s.srvVer == 1 && Piling(s, 0, 1, 0, 3)
    requires tape.coin(s.pos + 1) >= cfg.faults.delayRate
    ensures WriteStep(cfg, tape, s).surf[0].gap
  {
    hide Stable, FanOutTo, Drain, WriteStep, BeginWrite, LatestEvent, ApplyWrite, NothingDue, Addressed, Lossless;
    WriteStepIs(cfg, tape, s);
    ApplyWriteInv(cfg, tape, s);
    var key := tape.number(s.pos) % cfg.keyspace;
    var s1 := BeginWrite(s.(step := s.step + 1, pos := s.pos + 1), key);
    assert Piling(s1, 0, 1, 0, 3);
    FanOutToOvertakes(cfg, tape, s1, LatestEvent(cfg, s1, key), cfg.surfaces);
    DrainOvertaken(cfg, FanOutTo(cfg, tape, s1, LatestEvent(cfg, s1, key), cfg.surfaces));
  }

  lemma GapDiverges(cfg: Config, tape: Tape, m: nat)
    requires Normalised(cfg) && !cfg.resync && cfg.semantics == Delta && m <= cfg.writes
    requires AfterWrites(cfg, tape, m).surf[0].gap
    ensures Settled(cfg, tape).surf[0].version < WriteCount(cfg)
  {
    var w := WriteCount(cfg);
    hide AfterWrites, WriteStep, Settle, NothingDue, Addressed, Stable;
    GapLasts(cfg, tape, m, w);
    AfterWritesInv(cfg, tape, w);
    SettleGap(cfg, AfterWrites(cfg, tape, w));
    SettledInv(cfg, tape);
    SoundAt(cfg, Settled(cfg, tape), 0);
  }

  lemma FirstStalls(cfg: Config, tape: Tape)
    requires Normalised(cfg) && Lossless(cfg) && cfg.faults.delayMax >= 2 && Stalls(cfg, tape, 0, LateDraws(cfg))
    ensures var s := AfterWrites(cfg, tape, 1); Piling(s, 0, 1, 0, 3) && s.pos == LateDraws(cfg)
  {
    assert Misses(cfg, tape, 0, 0 * QuietDraws(cfg));
    hide AfterWrites, Lossless, Misses, Stalls, QuietDraws, LateDraws, Piling;
    PileUp(cfg, tape, 0, 1, 3);
  }

  /** A first delta that is stalled and a second one that is not: the second finds
      the first missing, and the gap is for good. */
  lemma ReorderDiverges(cfg: Config, tape: Tape)
    requires Normalised(cfg) && !cfg.resync && Lossless(cfg) && cfg.semantics == Delta
    requires cfg.writes >= 2 && cfg.buffer >= 2 && cfg.faults.delayMax >= 2
    requires Stalls(cfg, tape, 0, LateDraws(cfg)) && tape.coin(LateDraws(cfg) + 1) >= cfg.faults.delayRate
    ensures Settled(cfg, tape).surf[0].version < WriteCount(cfg)
  {
    hide AfterWrites, Lossless, Stalls, LateDraws, Piling, WriteStep, Settled, NothingDue, Addressed, Stable;
    FirstStalls(cfg, tape);
    AfterWritesInv(cfg, tape, 1);
    OneMoreWrite(cfg, tape, 1);
    WriteStepOvertakes(cfg, tape, AfterWrites(cfg, tape, 1));
    GapDiverges(cfg, tape, 2);
  }

  // ---------------------------------------------------------------- the condition

  /** The delay coin hits between two positions and nowhere else. */
  function Window(cfg: Config, lo: nat, hi: nat): Tape {
    Tape((p: nat) => if lo <= p < hi then 0.0 else cfg.faults.delayRate,
         (p: nat) => if cfg.faults.delayMax >= 1 then cfg.faults.delayMax - 1 else 0)
  }

  lemma WindowStalls(cfg: Config, lo: nat, hi: nat)
    requires Normalised(cfg) && Lossless(cfg) && lo <= hi
    ensures Misses(cfg, Window(cfg, lo, hi), 0, lo) && Stalls(cfg, Window(cfg, lo, hi), lo, hi)
    ensures forall p: nat :: p >= hi ==> Window(cfg, lo, hi).coin(p) >= cfg.faults.delayRate
    ensures cfg.faults.delayRate < 1.0 ==> Fractions(Window(cfg, lo, hi))
  {
  }

  /** A configuration that is not robust has draws under which a run is reported;
      such as a real generator may make, unless it always delays. */
  lemma NotRobustDiverges(cfg: Config) returns (tape: Tape)
    requires Normalised(cfg) && !cfg.resync && !Robust(cfg)
    ensures Finish(Final(cfg, tape)).violations != []
    ensures cfg.faults.delayRate < 1.0 ==> Fractions(tape)
  {
    hide Settled, Final, Finish, Stalls, Misses, QuietDraws, LateDraws, Window;
    if cfg.faults.dropRate > 0.0 || cfg.faults.partitionRate > 0.0 {
      tape := Tape((p: nat) => 0.0, (p: nat) => 0);
      LossyDiverges(cfg, tape);
    } else if cfg.buffer <= Least(MaxDelay(cfg), cfg.writes - 1) {
      var n := cfg.writes - 1 - cfg.buffer;
      var lo := n * QuietDraws(cfg);
      var hi := lo + cfg.buffer * LateDraws(cfg);
      tape := Window(cfg, lo, hi);
      WindowStalls(cfg, lo, hi);
      FullDiverges(cfg, tape, n);
    } else {
      tape := Window(cfg, 0, LateDraws(cfg));
      WindowStalls(cfg, 0, LateDraws(cfg));
      ReorderDiverges(cfg, tape);
    }
    BehindIsReported(cfg, tape);
  }

  /** Without resync, no draws whatever make a run diverge if and only if the
      configuration is robust; nor do the draws that a real generator makes,
      unless it always delays. */
  lemma ReportsNothingIffRobust(c: Config)
    requires !c.resync
    ensures (forall tape :: Finish(Final(Normal(c), tape)).violations == []) <==> Robust(Normal(c))
    ensures c.faults.delayRate < 1.0 ==>
      ((forall tape :: Fractions(tape) ==> Finish(Final(Normal(c), tape)).violations == []) <==> Robust(Normal(c)))
  {
    var cfg := Normal(c);
    assert cfg.faults.delayRate == c.faults.delayRate && cfg.resync == c.resync;
    hide Final, Finish, Robust, Settled, AllCaughtUp, Converged, Fractions;
    if Robust(cfg) {
      forall tape ensures Finish(Final(cfg, tape)).violations == [] {
        RobustConverges(c, tape);
        FinalStable(cfg, tape);
        CaughtUpIsConverged(Final(cfg, tape));
        OnlyDivergenceIsReported(c, tape);
      }
    } else {
      var tape := NotRobustDiverges(cfg);
    }
  }
}
