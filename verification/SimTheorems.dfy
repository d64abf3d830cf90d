/** The theorems about complete runs: for every configuration and every tape
    of random draws. */
module SimTheorems {
  import opened SimModel
  import opened SimSafety
  import opened SimRecovery
  import opened SimBooks
  import opened SimActions
  import opened SimStream
  import opened SimRun
  import opened SimTrace
  import opened Invariants

  function Server(s: State): Authoritative { Authoritative(s.srvData, s.srvVer) }

  ghost predicate AllCaughtUp(s: State) {
    forall i :: 0 <= i < |s.surf| ==> !Lagging(s, i) && s.surf[i].data == s.srvData
  }

  lemma CaughtUpIsConverged(s: State)
    requires AllCaughtUp(s)
    ensures Converged(Server(s), ViewsOf(s.surf))
  {
  }

  lemma {:induction false} QuiesceIdle(s: State, n: nat)
    requires n <= |s.surf| && AllCaughtUp(s)
    ensures Quiesce(s, n) == s
  {
    if n > 0 {
      QuiesceIdle(s, n - 1);
    }
  }

  lemma QuietIsCaughtUp(cfg: Config, s: State)
    requires Stable(cfg, s) && s.queue == [] && cfg.resync
    ensures AllCaughtUp(s)
  {
    forall i | 0 <= i < |s.surf| ensures !Lagging(s, i) && s.surf[i].data == s.srvData {
      EmptyQueueConverged(cfg, s, i);
    }
  }

  /** A stable state: after the n-th write and its drain, or at the end. */
  lemma FinalStable(cfg: Config, tape: Tape)
    requires Normalised(cfg)
    ensures var r := Final(cfg, tape);
      Stable(cfg, r) && r.queue == [] && r.srvVer == WriteCount(cfg) <= r.step
    ensures Final(cfg, tape) == Settled(cfg, tape)
  {
    hide Settle, AfterWrites, Inv;
    SettledInv(cfg, tape);
    var s := Settled(cfg, tape);
    if cfg.resync {
      QuietIsCaughtUp(cfg, s);
      QuiesceIdle(s, cfg.surfaces);
    }
  }

  // ----------------------------------------------------------------- convergence

  /** The headline claim.  With resync, whenever the delivery queue is empty
      between writes, and at the end, every surface is connected, ungapped and
      equal to the authority; the quiesce loop finds nothing to do. */
  lemma ConvergesUnderResync(c: Config, tape: Tape)
    requires c.resync
    ensures var cfg := Normal(c);
      && (forall n: nat :: AfterWrites(cfg, tape, n).queue == [] ==> AllCaughtUp(AfterWrites(cfg, tape, n)))
      && AllCaughtUp(Settled(cfg, tape))
      && Final(cfg, tape) == Settled(cfg, tape)
  {
    var cfg := Normal(c);
    hide Inv, Final, Settled, AfterWrites, AllCaughtUp;
    forall n: nat | AfterWrites(cfg, tape, n).queue == [] ensures AllCaughtUp(AfterWrites(cfg, tape, n)) {
      AfterWritesInv(cfg, tape, n);
      QuietIsCaughtUp(cfg, AfterWrites(cfg, tape, n));
    }
    FinalStable(cfg, tape);
    QuietIsCaughtUp(cfg, Final(cfg, tape));
  }

  /** So no run with resync is ever reported. */
  lemma ResyncReportsNothing(c: Config, tape: Tape)
    requires c.resync
    ensures Finish(Final(Normal(c), tape)).violations == []
  {
    hide Final, Settled, AfterWrites, AllCaughtUp, Finish, Converged;
    ConvergesUnderResync(c, tape);
    CaughtUpIsConverged(Final(Normal(c), tape));
    OnlyDivergenceIsReported(c, tape);
  }

  lemma StableReports(cfg: Config, s: State)
    requires Stable(cfg, s)
    ensures Finish(s).violations
         == if Converged(Server(s), ViewsOf(s.surf)) then [] else [Violation(s.step, Convergence)]
  {
    hide Finish;
    FinishReports(cfg, s, |s.surf|);
  }

  /** With or without resync, the only violation a run can report is that it has
      not converged; ordering is never violated. */
  lemma OnlyDivergenceIsReported(c: Config, tape: Tape)
    ensures var s := Final(Normal(c), tape);
      Finish(s).violations == if Converged(Server(s), ViewsOf(s.surf)) then [] else [Violation(s.step, Convergence)]
  {
    hide Final, Finish;
    FinalStable(Normal(c), tape);
    StableReports(Normal(c), Final(Normal(c), tape));
  }

  /** The result of a run gives the final clock, the replay of all writes, and
      what each surface shows. */
  lemma ResultTells(c: Config, tape: Tape)
    ensures var s, r := Final(Normal(c), tape), Finish(Final(Normal(c), tape));
      && r.steps == s.step
      && r.auth.version == WriteCount(Normal(c)) == |s.writes| && r.auth.data == Replay(s.writes)
      && |r.views| == Normal(c).surfaces == |s.surf|
      && forall i :: 0 <= i < |r.views| ==>
        && r.views[i].version == s.surf[i].version <= |s.writes|
        && r.views[i].data == s.surf[i].data == Replay(s.writes[..r.views[i].version])
  {
    var s := Final(Normal(c), tape);
    AuthorityIsReplay(c, tape);
    FinalStable(Normal(c), tape);
    assert |s.surf| == Normal(c).surfaces;
    hide Final, Inv, Safe, OrderingViolations, Converged;
    FinalSafe(Normal(c), tape);
    forall i | 0 <= i < |s.surf| ensures SurfaceSound(s.writes, s.surf[i], |s.writes|) {
      SafeSurface(Normal(c), s, i);
    }
  }

  lemma SafeSurface(cfg: Config, s: State, i: nat)
    requires Safe(cfg, s, |s.surf|) && i < |s.surf|
    ensures SurfaceSound(s.writes, s.surf[i], |s.writes|)
  {
    assert SurfaceSound(s.writes, s.surf[i], Upto(|s.writes|, |s.surf|, i));
  }

  // ---------------------------------------------------------- prefix consistency

  /** Two instants of a safe state, and the state itself, for one surface. */
  lemma SafeAcrossTime(cfg: Config, s: State, k: nat, l: nat, i: nat)
    requires Safe(cfg, s, |s.surf|) && k <= l < |s.trace| && i < |s.trace[k].surf|
    ensures |s.trace[l].surf| == |s.trace[k].surf| == |s.surf|
    ensures var early, late, last := s.trace[k].surf[i], s.trace[l].surf[i], s.surf[i];
      && SurfaceSound(s.writes, early, s.trace[k].srvVer)
      && SurfaceSound(s.writes, last, |s.writes|)
      && s.trace[k].srvVer <= |s.writes|
      && s.trace[k].srvData == Replay(s.writes[..s.trace[k].srvVer])
      && (k < l ==> Follows(cfg, early, late))
      && Follows(cfg, late, last) && Follows(cfg, early, last)
  {
    assert InstantSound(s.writes, s.trace[k]);
    assert k < l ==> AllFollow(cfg, s.trace[k].surf, s.trace[l].surf);
    assert AllFollow(cfg, s.trace[l].surf, s.surf);
    assert AllFollow(cfg, s.trace[k].surf, s.surf);
    assert SurfaceSound(s.writes, s.surf[i], Upto(|s.writes|, |s.surf|, i));
  }

  /** At every instant of every run each surface shows the authoritative map as
      it stood at the surface's version, which is not ahead of the server's. */
  lemma ShowsAPrefix(c: Config, tape: Tape, k: nat, i: nat)
    requires k < |Final(Normal(c), tape).trace|
    requires i < |Final(Normal(c), tape).trace[k].surf|
    ensures var s := Final(Normal(c), tape); var t := s.trace[k];
      && t.surf[i].version <= t.srvVer <= |s.writes|
      && t.surf[i].data == Replay(s.writes[..t.surf[i].version])
      && t.srvData == Replay(s.writes[..t.srvVer])
  {
    hide Final, Inv, Safe, Normal;
    FinalSafe(Normal(c), tape);
    SafeAcrossTime(Normal(c), Final(Normal(c), tape), k, k, i);
  }

  /** Nor does any surface ever go back to an earlier version. */
  lemma NeverGoesBack(c: Config, tape: Tape, k: nat, l: nat, i: nat)
    requires k <= l < |Final(Normal(c), tape).trace|
    requires i < |Final(Normal(c), tape).trace[k].surf|
    ensures var s := Final(Normal(c), tape);
      && |s.trace[l].surf| == |s.trace[k].surf| == |s.surf|
      && s.trace[k].surf[i].version <= s.trace[l].surf[i].version <= s.surf[i].version <= |s.writes|
      && s.surf[i].data == Replay(s.writes[..s.surf[i].version])
      && NonDecreasing(s.surf[i].history)
  {
    hide Final, Inv, Safe, Normal;
    FinalSafe(Normal(c), tape);
    SafeAcrossTime(Normal(c), Final(Normal(c), tape), k, l, i);
  }

  lemma FinalSafe(cfg: Config, tape: Tape)
    requires Normalised(cfg)
    ensures Safe(cfg, Final(cfg, tape), |Final(cfg, tape).surf|)
  {
    hide Final, Safe;
    FinalStable(cfg, tape);
  }

  /** withDefaults, with its guarantee attached. */
  function Normal(c: Config): (r: Config)
    ensures Normalised(r)
  {
    DefaultsNormalise(c);
    WithDefaults(c)
  }

  /** The server's last state is the result of the configured number of writes. */
  lemma AuthorityIsReplay(c: Config, tape: Tape)
    ensures var s := Final(Normal(c), tape);
      s.srvVer == |s.writes| == WriteCount(Normal(c)) && s.srvData == Replay(s.writes)
  {
    FinalStable(Normal(c), tape);
  }

  // ------------------------------------------------------------- without recovery

  /** Delta events without resync: a surface that shows a gap shows the same
      data and version ever after. */
  lemma GapIsForever(c: Config, tape: Tape, k: nat, l: nat, i: nat)
    requires c.semantics == Delta && !c.resync
    requires k <= l < |Final(Normal(c), tape).trace|
    requires i < |Final(Normal(c), tape).trace[k].surf|
    requires Final(Normal(c), tape).trace[k].surf[i].gap
    ensures var s := Final(Normal(c), tape);
      && |s.trace[l].surf| == |s.trace[k].surf| == |s.surf|
      && var early, late, last := s.trace[k].surf[i], s.trace[l].surf[i], s.surf[i];
      && late.gap && late.version == early.version && late.data == early.data
      && last.gap && last.version == early.version && last.data == early.data
  {
    hide Final, Inv, Safe, SurfaceSound;
    FinalSafe(Normal(c), tape);
    SafeAcrossTime(Normal(c), Final(Normal(c), tape), k, l, i);
  }

  /** Delta events: at the end a surface matches the authority if and only if
      its gap flag is down.  (Under resync no gap flag is up.) */
  lemma DeltaMatchesIffNoGap(c: Config, tape: Tape, i: nat)
    requires c.semantics == Delta && i < |Final(Normal(c), tape).surf|
    ensures var s := Final(Normal(c), tape);
      Presents(Server(s), ViewsOf(s.surf)[i]) <==> !s.surf[i].gap
  {
    FinalStable(Normal(c), tape);
    EmptyQueueConverged(Normal(c), Final(Normal(c), tape), i);
  }

  /** Snapshots without resync or partitions: the stream is a join.  A surface
      ends at the largest version ever scheduled for it, in whatever order and
      however often its events arrived. */
  lemma SnapshotsJoin(c: Config, tape: Tape, i: nat)
    requires c.semantics == Snapshot && !c.resync && c.faults.partitionRate <= 0.0
    requires i < |Final(Normal(c), tape).surf|
    ensures var s := Final(Normal(c), tape);
      && IsLargestOffered(s.sched, i, s.surf[i].version)
      && s.surf[i].version <= |s.writes|
      && s.surf[i].data == Replay(s.writes[..s.surf[i].version])
  {
    FinalStable(Normal(c), tape);
    var s := Final(Normal(c), tape);
    JoinedAtRest(s, i);
    assert SurfaceSound(s.writes, s.surf[i], Upto(|s.writes|, |s.surf|, i));
  }

  /** No drops, delays or partitions: every surface applies versions 0, 1, ...
      in turn, whatever the duplicates, the buffer, the semantics and the
      recovery, and is up to date after each write. */
  lemma LossFreeIsExact(c: Config, tape: Tape, n: nat)
    requires LossFree(c)
    ensures var s := AfterWrites(Normal(c), tape, n);
      && s.step == s.srvVer == n
      && s.queue == []
      && AllCaughtUp(s)
      && forall i :: 0 <= i < |s.surf| ==> s.surf[i].history == UpFrom0(n)
    ensures Final(Normal(c), tape) == AfterWrites(Normal(c), tape, WriteCount(c))
  {
    LossFreeStep(Normal(c), tape, n);
    LossFreeStep(Normal(c), tape, WriteCount(c));
    FinalStable(Normal(c), tape);
  }

  lemma LossFreeStep(cfg: Config, tape: Tape, n: nat)
    requires Normalised(cfg) && LossFree(cfg)
    ensures var s := AfterWrites(cfg, tape, n);
      && s.step == s.srvVer == n
      && s.queue == []
      && AllCaughtUp(s)
      && forall i :: 0 <= i < |s.surf| ==> s.surf[i].history == UpFrom0(n)
  {
    AfterWritesInv(cfg, tape, n);
    var s := AfterWrites(cfg, tape, n);
    hide AfterWrites;
    InStepSettled(cfg, s);
    assert s.writes[..s.srvVer] == s.writes;
    forall i | 0 <= i < |s.surf| ensures s.surf[i].data == s.srvData {
      assert SurfaceSound(s.writes, s.surf[i], Upto(|s.writes|, |s.surf|, i));
    }
  }

  // ------------------------------------------------------------------ accounting

  lemma {:induction false} NoneAwaited(q: seq<Delivery>)
    requires q == []
    ensures Awaited(q) == 0 && Work(q) == 0
  {
  }

  /** Under resync each drop, partition and gap is answered by one reconnect;
      without it there is none. */
  lemma ReconnectsAnswerFaults(c: Config, tape: Tape)
    ensures var t := Final(Normal(c), tape).trace;
      Count(t, ActReconnect) == if c.resync then Count(t, ActDrop) + Count(t, ActPartition) + Count(t, ActGap) else 0
  {
    FinalStable(Normal(c), tape);
    NoneAwaited(Final(Normal(c), tape).queue);
  }

  /** Every instant of every run shows, on the surface its action names, what the
      action says has just happened there. */
  lemma ActionsTell(c: Config, tape: Tape, k: nat)
    requires k < |Final(Normal(c), tape).trace|
    ensures Tells(Final(Normal(c), tape).trace[k])
  {
    FinalStable(Normal(c), tape);
  }

  /** And nothing goes unrecorded: each write, each version a surface came to and
      each second copy of an event has its own instant. */
  lemma ActionsAreComplete(c: Config, tape: Tape)
    ensures var s := Final(Normal(c), tape);
      && Count(s.trace, ActWrite) == WriteCount(Normal(c))
      && (forall i :: 0 <= i < |s.surf| ==> |s.surf[i].history| == Applied(s.trace, i))
      && Count(s.trace, ActDuplicate) == Tally(s.sched, IsEvent()) - |Addresses(s.sched)|
  {
    FinalStable(Normal(c), tape);
  }

  /** Each scheduled delivery is processed exactly once, and in all there are
      at most four per write and surface. */
  lemma ProcessedOnce(c: Config, tape: Tape)
    ensures var s := Final(Normal(c), tape);
      && multiset(s.sched) == multiset(Deliveries(s.handled))
      && |s.handled| <= 4 * (WriteCount(c) * Normal(c).surfaces)
  {
    hide Final;
    FinalStable(Normal(c), tape);
    AtRest(Normal(c), Final(Normal(c), tape));
  }

  lemma AtRest(cfg: Config, s: State)
    requires Conserved(s) && WithinBudget(cfg, s, |s.surf|) && |s.surf| == cfg.surfaces && s.queue == []
    ensures multiset(s.sched) == multiset(Deliveries(s.handled))
    ensures |s.handled| <= 4 * (s.srvVer * cfg.surfaces)
  {
    NoneAwaited(s.queue);
  }

  /** The clock stops within the delay of the network and one recovery of the
      last write. */
  lemma StepsBounded(c: Config, tape: Tape)
    ensures WriteCount(c) <= Final(Normal(c), tape).step
              <= WriteCount(c) + MaxDelay(Normal(c)) + RecoveryDelay(Normal(c))
  {
    FinalStable(Normal(c), tape);
  }

  /** No delivery is processed early, and none late, unless the configuration
      sets reconnects in the past. */
  lemma ProcessedOnTime(c: Config, tape: Tape, k: nat)
    requires k < |Final(Normal(c), tape).handled|
    ensures HandledOnTime(Normal(c), Final(Normal(c), tape).handled[k])
  {
    FinalStable(Normal(c), tape);
  }

  /** A surface's buffer count stays within the buffer and within what is in
      flight for the surface. */
  lemma BuffersBounded(c: Config, tape: Tape, n: nat, i: nat)
    requires i < |AfterWrites(Normal(c), tape, n).surf|
    ensures var s := AfterWrites(Normal(c), tape, n);
      s.surf[i].buf <= Normal(c).buffer && s.surf[i].buf <= InFlight(s.queue, i)
  {
    AfterWritesInv(Normal(c), tape, n);
  }

  // --------------------------------------------------------------------- verdicts

  /** In every recorded frame the live verdict is the verdict of the strict
      check on the state of that instant; exactly the last frame is final. */
  lemma LiveVerdictIsExact(c: Config, tape: Tape, k: nat)
    requires k < |Final(Normal(c), tape).trace|
    ensures var s := Final(Normal(c), tape);
      var frames := Recorded(Normal(c), s);
      && |frames| == |s.trace|
      && frames[k].total == |frames| && frames[k].step == k + 1 && frames[k].action == s.trace[k].action
      && (frames[k].isFinal <==> k == |frames| - 1)
      && (frames[k].violated ==> frames[k].isFinal)
      && (frames[k].converged <==> InstantConverged(s.trace[k]))
  {
    hide Final, Inv, Safe, Current, Recorded, Finish;
    FinalCurrent(Normal(c), tape);
    VerdictAt(Normal(c), Final(Normal(c), tape), k);
  }

  /** There is a last frame, and it reports a violation exactly when it does not
      show convergence, which is when the run is reported. */
  lemma TerminalVerdictIsExact(c: Config, tape: Tape)
    ensures var s := Final(Normal(c), tape);
      var frames := Recorded(Normal(c), s);
      && |frames| == |s.trace| > 0
      && frames[|frames| - 1].violated == !frames[|frames| - 1].converged
      && (frames[|frames| - 1].violated <==> Finish(s).violations != [])
  {
    var s := Final(Normal(c), tape);
    hide Final, Inv, Safe, Current, Recorded, Finish;
    FinalCurrent(Normal(c), tape);
    LastVerdict(Normal(c), s);
  }

  lemma LastVerdict(cfg: Config, s: State)
    requires Safe(cfg, s, |s.surf|) && Current(s)
    ensures var frames := Recorded(cfg, s);
      && |frames| == |s.trace| > 0
      && frames[|frames| - 1].violated == !frames[|frames| - 1].converged
      && (frames[|frames| - 1].violated <==> Finish(s).violations != [])
  {
    hide Safe, Current, Recorded, Finish, InstantConverged;
    TerminalVerdict(cfg, s);
    VerdictAt(cfg, s, |s.trace| - 1);
  }

  ghost predicate InstantConverged(t: Instant) {
    Converged(Authoritative(t.srvData, t.srvVer), ViewsOf(t.surf))
  }

  lemma FinalCurrent(cfg: Config, tape: Tape)
    requires Normalised(cfg)
    ensures Safe(cfg, Final(cfg, tape), |Final(cfg, tape).surf|) && Current(Final(cfg, tape))
  {
    hide Final, Safe, Current;
    FinalStable(cfg, tape);
  }

  lemma VerdictAt(cfg: Config, s: State, k: nat)
    requires Safe(cfg, s, |s.surf|) && k < |s.trace|
    ensures var frames := Recorded(cfg, s);
      && |frames| == |s.trace|
      && frames[k].total == |frames| && frames[k].step == k + 1 && frames[k].action == s.trace[k].action
      && (frames[k].isFinal <==> k == |frames| - 1)
      && (frames[k].violated ==> frames[k].isFinal)
      && (frames[k].converged <==> InstantConverged(s.trace[k]))
      && (k == |frames| - 1 ==> frames[k].violated == (Finish(s).violations != []))
  {
    var frames := FramesOf(cfg, s.trace);
    assert frames[k] == FrameFor(cfg, s.trace[k], k + 1);
    ExactFrames(cfg, s);
    StampedFrames(frames, Finish(s).violations != []);
    hide Safe, InstantConverged, FrameFor, FramesOf, Stamped, Finish;
  }

  lemma TerminalVerdict(cfg: Config, s: State)
    requires Safe(cfg, s, |s.surf|) && Current(s)
    ensures |s.trace| > 0 && (Finish(s).violations != [] <==> !InstantConverged(s.trace[|s.trace| - 1]))
  {
    FinishReports(cfg, s, |s.surf|);
    CurrentViews(s);
    hide Safe, Finish, Converged, ViewsOf;
  }

  /** What the closing loop of a recording changes in its frames. */
  lemma StampedFrames(frames: seq<Frame>, violated: bool)
    ensures var r := Stamped(frames, violated);
      && |r| == |frames|
      && (forall k :: 0 <= k < |r| - 1 ==> r[k].violated == frames[k].violated)
      && (forall k :: 0 <= k < |r| ==>
            && r[k].total == |frames| && r[k].step == frames[k].step && r[k].action == frames[k].action
            && r[k].converged == frames[k].converged
            && r[k].isFinal == (k == |r| - 1 || frames[k].isFinal))
      && (|r| > 0 ==> r[|r| - 1].violated == violated)
  {
  }

  /** Before the terminal verdict is stamped on, each frame's own is exact. */
  lemma ExactFrames(cfg: Config, s: State)
    requires Safe(cfg, s, |s.surf|)
    ensures forall k :: 0 <= k < |s.trace| ==>
      var f := FrameFor(cfg, s.trace[k], k + 1);
      && f.step == k + 1 && !f.isFinal && !f.violated && f.action == s.trace[k].action
      && (f.converged <==> InstantConverged(s.trace[k]))
  {
    forall k | 0 <= k < |s.trace|
      ensures FrameFor(cfg, s.trace[k], k + 1).converged <==> InstantConverged(s.trace[k])
    {
      assert InstantSound(s.writes, s.trace[k]);
      VerdictExact(cfg, s.writes, s.trace[k], k + 1);
    }
  }
}
