/** The watchable simulator: it records a run, plays its frames back, and writes
    each completed run to a ledger with tallies taken from the frames alone. */
module Simviz {
  import opened SimModel
  import opened SimSafety
  import opened SimBooks
  import opened SimTrace
  import opened SimTheorems
  import opened SimDraws
  import opened SimDivergence
  import SimKernel

  const HOLD_TICKS := 3
  const LEDGER_MAX := 40
  const SURFACES := 4
  const WRITES := 22

  datatype Intensity = Calm | Normal | Storm

  function Profile(i: Intensity): Faults {
    match i
    case Calm => Faults.Faults(0.06, 0.12, 3, 0.04, 0.03, 3)
    case Storm => Faults.Faults(0.35, 0.40, 5, 0.20, 0.18, 3)
    case Normal => Faults.Faults(0.25, 0.30, 4, 0.15, 0.10, 3)
  }

  datatype RunResult = RunResult(
    seed: int, semantics: Semantics, intensity: Intensity, resync: bool,
    surfaces: nat, writes: nat, steps: nat, converged: bool, violated: bool,
    tally: Tally)

  datatype Tally = Tally(drops: nat, duplicates: nat, partitions: nat, reconnects: nat, gaps: nat, maxLag: nat)

  // ------------------------------------------------------------------- tallies

  /** How many of the first n frames show an action of the given kind. */
  function FrameCount(frames: seq<Frame>, n: nat, kind: ActionKind): nat
    requires n <= |frames|
  {
    if n == 0 then 0 else FrameCount(frames, n - 1, kind) + if frames[n - 1].action.kind == kind then 1 else 0
  }

  /** How far surface i is behind in a frame. */
  function Lag(f: Frame, i: nat): int
    requires i < |f.surfaces|
  {
    f.authVersion - f.surfaces[i].version
  }

  /** The largest lag of any surface in the first n frames, 0 if none is behind. */
  ghost predicate IsMaxLag(frames: seq<Frame>, n: nat, m: nat)
    requires n <= |frames|
  {
    && (forall k, i :: 0 <= k < n && 0 <= i < |frames[k].surfaces| ==> Lag(frames[k], i) <= m)
    && (m == 0 || exists k, i :: 0 <= k < n && 0 <= i < |frames[k].surfaces| && Lag(frames[k], i) == m)
  }

  ghost predicate Tallies(frames: seq<Frame>, n: nat, t: Tally)
    requires n <= |frames|
  {
    && t.drops == FrameCount(frames, n, ActDrop)
    && t.duplicates == FrameCount(frames, n, ActDuplicate)
    && t.partitions == FrameCount(frames, n, ActPartition)
    && t.reconnects == FrameCount(frames, n, ActReconnect)
    && t.gaps == FrameCount(frames, n, ActGap)
    && IsMaxLag(frames, n, t.maxLag)
  }

  /** The least of an authoritative version and the surfaces' versions. */
  method LowestVersion(f: Frame) returns (low: nat)
    ensures low <= f.authVersion
    ensures forall i :: 0 <= i < |f.surfaces| ==> low <= f.surfaces[i].version
    ensures low == f.authVersion || exists i :: 0 <= i < |f.surfaces| && f.surfaces[i].version == low
  {
    low := f.authVersion;
    for i := 0 to |f.surfaces|
      invariant low <= f.authVersion
      invariant forall j :: 0 <= j < i ==> low <= f.surfaces[j].version
      invariant low == f.authVersion || exists j :: 0 <= j < i && f.surfaces[j].version == low
    {
      if f.surfaces[i].version < low {
        low := f.surfaces[i].version;
      }
    }
  }

  method TallyFrames(frames: seq<Frame>) returns (t: Tally)
    ensures Tallies(frames, |frames|, t)
  {
    t := Tally(0, 0, 0, 0, 0, 0);
    for n := 0 to |frames|
      invariant Tallies(frames, n, t)
    {
      var f := frames[n];
      match f.action.kind {
        case ActDrop => t := t.(drops := t.drops + 1);
        case ActDuplicate => t := t.(duplicates := t.duplicates + 1);
        case ActPartition => t := t.(partitions := t.partitions + 1);
        case ActReconnect => t := t.(reconnects := t.reconnects + 1);
        case ActGap => t := t.(gaps := t.gaps + 1);
        case _ =>
      }
      var low := LowestVersion(f);
      var before := t.maxLag;
      var lag := f.authVersion - low;
      if lag > t.maxLag {
        t := t.(maxLag := lag);
      }
      ghost var m := t.maxLag;
      assert m != 0 ==> exists k, i :: 0 <= k < n + 1 && 0 <= i < |frames[k].surfaces| && Lag(frames[k], i) == m by {
        if lag > before {
          var i :| 0 <= i < |f.surfaces| && f.surfaces[i].version == low;
          assert Lag(frames[n], i) == m;
        } else if m != 0 {
          var k, i :| 0 <= k < n && 0 <= i < |frames[k].surfaces| && Lag(frames[k], i) == m;
        }
      }
      forall k, i | 0 <= k < n + 1 && 0 <= i < |frames[k].surfaces| ensures Lag(frames[k], i) <= m {
        if k < n {
          assert Lag(frames[k], i) <= before;
        }
      }
    }
  }

  /** Counting frames is counting instants. */
  lemma {:induction false} FramesCountInstants(cfg: Config, s: State, n: nat, kind: ActionKind)
    requires n <= |s.trace|
    ensures FrameCount(Recorded(cfg, s), n, kind) == Count(s.trace[..n], kind)
  {
    if n > 0 {
      FramesCountInstants(cfg, s, n - 1, kind);
      assert s.trace[..n][..n - 1] == s.trace[..n - 1];
    }
  }

  /** The largest lag tallied from the frames of a run is the largest by which any
      surface trailed the server at any instant. */
  lemma LagIsTrue(cfg: Config, s: State, t: Tally)
    requires Tallies(Recorded(cfg, s), |s.trace|, t)
    ensures forall k, i :: 0 <= k < |s.trace| && 0 <= i < |s.trace[k].surf| ==>
      s.trace[k].srvVer - s.trace[k].surf[i].version <= t.maxLag
    ensures t.maxLag == 0 || (exists k, i ::
      0 <= k < |s.trace| && 0 <= i < |s.trace[k].surf| && s.trace[k].srvVer - s.trace[k].surf[i].version == t.maxLag)
  {
    var frames := Recorded(cfg, s);
    assert |frames| == |s.trace|;
    forall k | 0 <= k < |s.trace| ensures |frames[k].surfaces| == |s.trace[k].surf| {
    }
    forall k, i | 0 <= k < |s.trace| && 0 <= i < |s.trace[k].surf|
      ensures Lag(frames[k], i) == s.trace[k].srvVer - s.trace[k].surf[i].version
    {
      FrameShows(cfg, s, k, i);
    }
    hide Recorded, FrameCount;
    forall k, i | 0 <= k < |s.trace| && 0 <= i < |s.trace[k].surf|
      ensures s.trace[k].srvVer - s.trace[k].surf[i].version <= t.maxLag
    {
      assert Lag(frames[k], i) <= t.maxLag;
    }
    if t.maxLag != 0 {
      var k, i :| 0 <= k < |frames| && 0 <= i < |frames[k].surfaces| && Lag(frames[k], i) == t.maxLag;
      assert s.trace[k].srvVer - s.trace[k].surf[i].version == t.maxLag;
    }
  }

  // -------------------------------------------------------------------- honesty

  /** What a ledger entry says about its run is what the contract says of it. */
  ghost predicate Honest(e: RunResult) {
    && (e.converged <==> !e.violated)
    && (e.resync ==> e.converged && e.tally.reconnects == e.tally.drops + e.tally.partitions + e.tally.gaps)
    && (!e.resync ==> e.tally.reconnects == 0)
    && e.writes == WRITES && e.surfaces == SURFACES
    && e.tally.maxLag <= WRITES
  }

  function Scenario(semantics: Semantics, intensity: Intensity, resync: bool): Config {
    Config(SURFACES, 6, WRITES, 5, semantics, Profile(intensity), resync)
  }

  lemma ScenarioNormal(semantics: Semantics, intensity: Intensity, resync: bool)
    ensures var c := Scenario(semantics, intensity, resync);
      Normalised(c) && SimTheorems.Normal(c) == c == WithDefaults(c)
  {
    DefaultsNormalise(Scenario(semantics, intensity, resync));
  }

  /** Each intensity is at least as rough as the one before, and none is certain
      to lose, delay or repeat an event. */
  lemma IntensitiesAscend()
    ensures Gentler(Profile(Calm), Profile(Intensity.Normal)) && Gentler(Profile(Intensity.Normal), Profile(Storm))
    ensures forall i :: BelowOne(Profile(i))
  {
  }

  predicate Gentler(f: Faults, g: Faults) {
    && 0.0 < f.dropRate < g.dropRate && 0.0 < f.delayRate < g.delayRate && f.delayMax < g.delayMax
    && 0.0 < f.duplicateRate < g.duplicateRate && 0.0 < f.partitionRate < g.partitionRate
  }

  /** So without resync no scenario is safe: some draws of a real generator have
      its run reported.  With resync none does. */
  lemma WhenScenariosAreReported(semantics: Semantics, intensity: Intensity, resync: bool)
    ensures var c := Scenario(semantics, intensity, resync);
      Normalised(c) && ((exists tape :: Fractions(tape) && Finish(Final(c, tape)).violations != []) <==> !resync)
  {
    var c := Scenario(semantics, intensity, resync);
    ScenarioNormal(semantics, intensity, resync);
    hide Final, Finish, Fractions;
    if resync {
      forall tape ensures Finish(Final(c, tape)).violations == [] {
        ResyncReportsNothing(c, tape);
      }
    } else {
      assert c.faults.delayRate < 1.0 && c.faults.dropRate > 0.0;
      var tape := NotRobustDiverges(c);
    }
  }

  /** The entry made from a frame sequence and its tally. */
  function Entry(frames: seq<Frame>, t: Tally, seed: int, sem: Semantics, i: Intensity, resync: bool): RunResult
    requires |frames| > 0
  {
    var last := frames[|frames| - 1];
    RunResult(seed, sem, i, resync, |last.surfaces|, last.authVersion, last.step,
              last.converged && !last.violated, last.violated, t)
  }

  lemma LagBound(cfg: Config, s: State, m: nat)
    requires Safe(cfg, s, |s.surf|) && IsMaxLag(Recorded(cfg, s), |s.trace|, m)
    ensures m <= |s.writes|
  {
    if m != 0 {
      var frames := Recorded(cfg, s);
      var k, i :| 0 <= k < |s.trace| && 0 <= i < |frames[k].surfaces| && Lag(frames[k], i) == m;
      assert InstantSound(s.writes, s.trace[k]);
    }
  }

  lemma TallyIsUnique(frames: seq<Frame>, t: Tally, u: Tally)
    requires Tallies(frames, |frames|, t) && Tallies(frames, |frames|, u)
    ensures t == u
  {
  }

  /** Recording the scenario that an entry names, from the seed that it names, gives
      the same entry again. */
  ghost predicate Reproducible(e: RunResult, tapes: int -> Tape) {
    var c := Scenario(e.semantics, e.intensity, e.resync);
    && Normalised(c)
    && var frames := Recorded(c, Final(c, tapes(e.seed)));
      && |frames| > 0 && Tallies(frames, |frames|, e.tally)
      && e == Entry(frames, e.tally, e.seed, e.semantics, e.intensity, e.resync)
      && e.steps == |frames|
  }

  /** Whatever a replay of an entry is tallied to, its entry is the one replayed. */
  lemma ReplayGivesSameEntry(e: RunResult, tapes: int -> Tape, frames: seq<Frame>, t: Tally)
    requires Reproducible(e, tapes)
    requires IsRecording(frames, Scenario(e.semantics, e.intensity, e.resync), tapes(e.seed))
    requires Tallies(frames, |frames|, t)
    ensures |frames| > 0 && Entry(frames, t, e.seed, e.semantics, e.intensity, e.resync) == e
  {
    hide Final, Scenario, Tallies, Recorded, Entry;
    TallyIsUnique(frames, t, e.tally);
  }

  lemma EntryIsReproducible(frames: seq<Frame>, sem: Semantics, i: Intensity, resync: bool, tapes: int -> Tape,
                            t: Tally, seed: int)
    requires IsRecording(frames, Scenario(sem, i, resync), tapes(seed)) && Tallies(frames, |frames|, t) && |frames| > 0
    ensures Reproducible(Entry(frames, t, seed, sem, i, resync), tapes)
  {
    var c := Scenario(sem, i, resync);
    ScenarioNormal(sem, i, resync);
    var s := Final(c, tapes(seed));
    assert |frames| == |s.trace|;
    hide Final, Finish, Tallies, Recorded, InstantConverged;
    LiveVerdictIsExact(c, tapes(seed), |s.trace| - 1);
    assert frames[|frames| - 1].step == |frames|;
  }

  ghost predicate IsRecording(frames: seq<Frame>, c: Config, tape: Tape) {
    Normalised(c) && frames == Recorded(c, Final(c, tape))
  }

  /** The counts in a tally of a recorded run balance as the run's faults do. */
  lemma CountsBalance(c: Config, tape: Tape, t: Tally)
    requires Normalised(c) && SimTheorems.Normal(c) == c
    requires Tallies(Recorded(c, Final(c, tape)), |Final(c, tape).trace|, t)
    ensures t.reconnects == if c.resync then t.drops + t.partitions + t.gaps else 0
  {
    var s := Final(c, tape);
    hide Final, Recorded, IsMaxLag;
    ReconnectsAnswerFaults(c, tape);
    assert s.trace[..|s.trace|] == s.trace;
    FramesCountInstants(c, s, |s.trace|, ActReconnect);
    FramesCountInstants(c, s, |s.trace|, ActDrop);
    FramesCountInstants(c, s, |s.trace|, ActPartition);
    FramesCountInstants(c, s, |s.trace|, ActGap);
  }

  /** Any tally of a recorded run, with the run's terminal frame, is honest. */
  lemma EntriesHonest(frames: seq<Frame>, sem: Semantics, i: Intensity, resync: bool, tape: Tape, t: Tally, seed: int)
    requires IsRecording(frames, Scenario(sem, i, resync), tape) && Tallies(frames, |frames|, t)
    ensures |frames| > 0 && Honest(Entry(frames, t, seed, sem, i, resync))
  {
    var c := Scenario(sem, i, resync);
    ScenarioNormal(sem, i, resync);
    var s := Final(c, tape);
    hide Final, Recorded, Finish, Safe, Current, IsMaxLag, FrameCount, AllCaughtUp, InstantConverged;
    TerminalVerdictIsExact(c, tape);
    AuthorityIsReplay(c, tape);
    FinalCurrent(c, tape);
    if resync {
      ResyncReportsNothing(c, tape);
    }
    CountsBalance(c, tape, t);
    LagBound(c, s, t.maxLag);
    LastFrame(c, s);
  }

  lemma LastFrame(cfg: Config, s: State)
    requires Current(s) && Safe(cfg, s, |s.surf|)
    ensures var frames := Recorded(cfg, s);
      |frames| == |s.trace| > 0
      && |frames[|frames| - 1].surfaces| == cfg.surfaces && frames[|frames| - 1].authVersion == s.srvVer
  {
  }

  // ------------------------------------------------------------------- playback

  class Sim {
    /** The random source that each seed stands for. */
    const tapes: int -> Tape
    var frames: seq<Frame>
    var cursor: nat
    var hold: nat
    var recorded: bool
    var playing: bool
    var seed: int
    var intensity: Intensity
    var resync: bool
    var semantics: Semantics
    var pauseOnFail: bool
    var ledger: seq<RunResult>
    var resultsVer: nat
    /** What has been handed to the broadcaster, in order. */
    var published: seq<Frame>

    /** Playback sits on a frame of the recording of the current scenario, and
        every entry of the ledger is honest. */
    ghost predicate Valid()
      reads this
    {
      && IsRecording(frames, Scenario(semantics, intensity, resync), tapes(seed))
      && cursor < |frames|
      && hold < HOLD_TICKS
      && |ledger| <= LEDGER_MAX
      && (forall e :: e in ledger ==> Honest(e) && Reproducible(e, tapes))
    }

    constructor (tapes: int -> Tape)
      ensures Valid() && this.tapes == tapes
      ensures playing && seed == 1 && cursor == 0 && !recorded && ledger == [] && published == []
      ensures intensity == Normal && resync && semantics == Delta && pauseOnFail
    {
      hide IsRecording, Honest, Reproducible, Scenario, Recorded, Final;
      this.tapes := tapes;
      playing, seed, intensity, resync, semantics, pauseOnFail := true, 1, Normal, true, Delta, true;
      ledger, resultsVer, frames, cursor, hold, recorded, published := [], 0, [], 0, 0, false, [];
      new;
      Rebuild();
    }

    /** Record the current scenario and go to its first frame. */
    method Rebuild()
      requires |ledger| <= LEDGER_MAX && forall e :: e in ledger ==> Honest(e) && Reproducible(e, tapes)
      modifies this`frames, this`cursor, this`hold, this`recorded
      ensures Valid() && cursor == 0 && hold == 0 && !recorded
    {
      hide Recorded, Final, Finish, Honest, Reproducible, InstantConverged;
      var cfg := Scenario(semantics, intensity, resync);
      ScenarioNormal(semantics, intensity, resync);
      var recording, result := SimKernel.Record(cfg, tapes(seed));
      TerminalVerdictIsExact(cfg, tapes(seed));
      frames, cursor, hold, recorded := recording, 0, 0, false;
    }

    /** Write the finished run to the ledger, once, newest first, capped; pause
        on a violation when so configured. */
    method RecordCompletion()
      requires Valid()
      modifies this`recorded, this`ledger, this`resultsVer, this`playing
      ensures Valid() && recorded
      ensures old(recorded) ==> ledger == old(ledger) && resultsVer == old(resultsVer) && playing == old(playing)
      ensures !old(recorded) ==>
        && resultsVer == old(resultsVer) + 1
        && |ledger| == (if |old(ledger)| < LEDGER_MAX then |old(ledger)| + 1 else LEDGER_MAX)
        && ledger[0] == Entry(frames, ledger[0].tally, seed, semantics, intensity, resync)
        && Tallies(frames, |frames|, ledger[0].tally)
        && ledger[1..] == old(ledger)[..|ledger| - 1]
        && playing == (old(playing) && !(frames[|frames| - 1].violated && pauseOnFail))
    {
      hide IsRecording, Tallies, Honest, Reproducible, Scenario;
      if recorded {
        return;
      }
      recorded := true;
      var tally := TallyFrames(frames);
      EntriesHonest(frames, semantics, intensity, resync, tapes(seed), tally, seed);
      EntryIsReproducible(frames, semantics, intensity, resync, tapes, tally, seed);
      var entry := Entry(frames, tally, seed, semantics, intensity, resync);
      ledger := [entry] + ledger;
      if |ledger| > LEDGER_MAX {
        ledger := ledger[..LEDGER_MAX];
      }
      resultsVer := resultsVer + 1;
      if entry.violated && pauseOnFail {
        playing := false;
      }
    }

    /** Hand out the frame that playback sits on. */
    method Publish()
      requires cursor < |frames|
      modifies this`published
      ensures published == old(published) + [frames[cursor]]
    {
      published := published + [frames[cursor]];
    }

    /** One beat of the playback clock. */
    method Tick()
      requires Valid()
      modifies this
      ensures Valid()
      ensures !old(playing) ==>
        && !playing && frames == old(frames) && cursor == old(cursor) && hold == old(hold)
        && ledger == old(ledger) && seed == old(seed) && recorded == old(recorded)
      ensures published == if old(playing) then old(published) + [frames[cursor]] else old(published)
      ensures old(playing) && old(cursor) < |old(frames)| - 1 ==>
        cursor == old(cursor) + 1 && frames == old(frames) && ledger == old(ledger) && seed == old(seed)
      ensures old(playing) && old(cursor) == |old(frames)| - 1 ==>
        && resultsVer == old(resultsVer) + (if old(recorded) then 0 else 1)
        && (playing && old(hold) == HOLD_TICKS - 1 ==> seed == old(seed) + 1 && cursor == 0 && !recorded)
        && (playing && old(hold) == HOLD_TICKS - 1 ==> hold == 0)
        && (!(playing && old(hold) == HOLD_TICKS - 1) ==>
              seed == old(seed) && cursor == old(cursor) && frames == old(frames) && recorded)
        && (playing && old(hold) < HOLD_TICKS - 1 ==> hold == old(hold) + 1)
        && (playing <==> old(recorded) || !(old(frames)[|old(frames)| - 1].violated && old(pauseOnFail)))
      ensures pauseOnFail == old(pauseOnFail)
      ensures semantics == old(semantics) && intensity == old(intensity) && resync == old(resync)
    {
      hide IsRecording, Tallies, Honest, Reproducible, Scenario;
      if !playing {
        return;
      }
      if cursor >= |frames| - 1 {
        RecordCompletion();
        if !playing {
          Publish();
          return;
        }
        if hold + 1 >= HOLD_TICKS {
          seed := seed + 1;
          Rebuild();
        } else {
          hold := hold + 1;
        }
        Publish();
        return;
      }
      cursor := cursor + 1;
      Publish();
    }

    /** Three beats at the end of a run that keeps playing start the next one. */
    method DwellThenReseed()
      requires Valid() && playing && cursor == |frames| - 1 && hold == 0
      modifies this
      ensures Valid()
      ensures playing <==> old(recorded) || !(old(frames)[|old(frames)| - 1].violated && old(pauseOnFail))
      ensures seed == if playing then old(seed) + 1 else old(seed)
      ensures playing ==> cursor == 0 && hold == 0 && !recorded
    {
      hide IsRecording, Tallies, Honest, Reproducible, Scenario;
      for beat := 0 to HOLD_TICKS
        invariant Valid()
        invariant beat == 0 ==> recorded == old(recorded) && playing
        invariant beat > 0 ==>
          (playing <==> old(recorded) || !(old(frames)[|old(frames)| - 1].violated && old(pauseOnFail)))
        invariant beat < HOLD_TICKS || !playing ==> seed == old(seed) && frames == old(frames) && cursor == |frames| - 1
        invariant beat < HOLD_TICKS && playing ==> hold == beat && (beat > 0 ==> recorded)
        invariant beat == HOLD_TICKS && playing ==> seed == old(seed) + 1 && cursor == 0 && hold == 0 && !recorded
        invariant pauseOnFail == old(pauseOnFail)
      {
        Tick();
      }
    }

    /** Advance one frame while paused; reaching the end completes the run. */
    method Step()
      requires Valid()
      modifies this
      ensures Valid() && seed == old(seed) && frames == old(frames)
      ensures old(playing) ==> cursor == old(cursor) && ledger == old(ledger)
      ensures !old(playing) ==> cursor == (if old(cursor) < |frames| - 1 then old(cursor) + 1 else old(cursor))
      ensures !old(playing) && cursor == |frames| - 1 ==> recorded
      ensures !old(playing) && cursor < |frames| - 1 ==> ledger == old(ledger) && recorded == old(recorded)
      ensures published == if old(playing) then old(published) else old(published) + [frames[cursor]]
    {
      hide IsRecording, Tallies, Honest, Reproducible, Scenario;
      if playing {
        return;
      }
      if cursor < |frames| - 1 {
        cursor := cursor + 1;
      }
      if cursor >= |frames| - 1 {
        RecordCompletion();
      }
      Publish();
    }

    /** Load an exact past run, paused at its first frame. */
    method Replay(seed: int, semantics: Semantics, intensity: Intensity, resync: bool)
      requires Valid()
      modifies this
      ensures Valid() && !playing && cursor == 0 && !recorded && ledger == old(ledger)
      ensures this.seed == seed && this.semantics == semantics && this.intensity == intensity && this.resync == resync
      ensures published == old(published) + [frames[0]]
    {
      hide IsRecording, Honest, Reproducible, Scenario;
      this.seed, this.semantics, this.intensity, this.resync := seed, semantics, intensity, resync;
      playing := false;
      Rebuild();
      Publish();
    }
  }
}
