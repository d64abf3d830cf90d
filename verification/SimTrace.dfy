/** The observable trace of a run: the frame recorded at each action, the
    verdicts it carries, and the result the run ends with. */
module SimTrace {
  import opened SimModel
  import opened SimSafety
  import opened Invariants

  datatype Status = Synced | Behind | Gapped | Disconnected

  datatype SurfaceState = SurfaceState(status: Status, version: nat, bufferUsed: nat, bufferCap: int)

  datatype Frame = Frame(
    step: nat, total: nat, action: Action, authVersion: nat, authKeys: nat,
    surfaces: seq<SurfaceState>, semantics: Semantics, resync: bool,
    converged: bool, isFinal: bool, violated: bool)

  datatype InvariantName = MonotonicVersion | Convergence

  datatype Violation = Violation(step: int, name: InvariantName)

  datatype Result = Result(steps: int, auth: Authoritative, views: seq<View>, violations: seq<Violation>)

  function StatusOf(sf: Surface, authVer: nat): Status {
    if !sf.connected then Disconnected
    else if sf.gap then Gapped
    else if sf.version < authVer then Behind
    else Synced
  }

  function StateOf(cfg: Config, sf: Surface, authVer: nat): SurfaceState {
    SurfaceState(StatusOf(sf, authVer), sf.version, sf.buf, cfg.buffer)
  }

  /** The frame of an instant; n is the number of actions so far. */
  function FrameFor(cfg: Config, t: Instant, n: nat): Frame {
    Frame(n, 0, t.action, t.srvVer, |t.srvData|,
          seq(|t.surf|, i requires 0 <= i < |t.surf| => StateOf(cfg, t.surf[i], t.srvVer)),
          cfg.semantics, cfg.resync,
          forall i :: 0 <= i < |t.surf| ==> StatusOf(t.surf[i], t.srvVer) == Synced,
          false, false)
  }

  function FramesOf(cfg: Config, trace: seq<Instant>): seq<Frame> {
    seq(|trace|, k requires 0 <= k < |trace| => FrameFor(cfg, trace[k], k + 1))
  }

  function ViewsOf(surf: seq<Surface>): seq<View> {
    seq(|surf|, i requires 0 <= i < |surf| => View(surf[i].data, surf[i].version))
  }

  /** The ordering violations of surfaces 0, ..., n-1. */
  ghost function OrderingViolations(surf: seq<Surface>, step: int, n: nat): seq<Violation>
    requires n <= |surf|
  {
    if n == 0 then []
    else OrderingViolations(surf, step, n - 1)
         + if NonDecreasing(surf[n - 1].history) then [] else [Violation(step, MonotonicVersion)]
  }

  /** What finish reports about a state. */
  ghost function Finish(s: State): Result {
    var auth := Authoritative(s.srvData, s.srvVer);
    Result(s.step, auth, ViewsOf(s.surf),
           OrderingViolations(s.surf, s.step, |s.surf|)
           + if Converged(auth, ViewsOf(s.surf)) then [] else [Violation(s.step, Convergence)])
  }

  /** The frames of a run with the count and the terminal verdict stamped on. */
  function Stamped(frames: seq<Frame>, violated: bool): seq<Frame> {
    seq(|frames|, k requires 0 <= k < |frames| =>
      var f := frames[k].(total := |frames|);
      if k == |frames| - 1 then f.(isFinal := true, violated := violated) else f)
  }

  ghost function Recorded(cfg: Config, s: State): seq<Frame> {
    Stamped(FramesOf(cfg, s.trace), Finish(s).violations != [])
  }

  // ------------------------------------------------------------------- verdicts

  /** A sound surface is shown as synced exactly when it presents the
      authoritative state. */
  lemma SyncedIsConverged(writes: seq<Write>, sf: Surface, srvVer: nat)
    requires srvVer <= |writes| && SurfaceSound(writes, sf, srvVer)
    ensures StatusOf(sf, srvVer) == Synced
       <==> Presents(Authoritative(Replay(writes[..srvVer]), srvVer), View(sf.data, sf.version))
  {
  }

  /** The other statuses: dark surfaces, connected ones that miss an event, and
      those that have yet to catch up; each of them a version or more behind. */
  lemma StatusTells(writes: seq<Write>, sf: Surface, srvVer: nat)
    requires srvVer <= |writes| && SurfaceSound(writes, sf, srvVer)
    ensures StatusOf(sf, srvVer) == Disconnected <==> !sf.connected
    ensures StatusOf(sf, srvVer) == Gapped <==> sf.connected && sf.gap
    ensures StatusOf(sf, srvVer) == Behind <==> sf.connected && !sf.gap && sf.version < srvVer
    ensures StatusOf(sf, srvVer) != Synced <==> sf.version < srvVer
  {
  }

  /** A frame shows the server and each surface as they stood at its instant. */
  lemma FrameShows(cfg: Config, s: State, k: nat, i: nat)
    requires k < |s.trace| && i < |s.trace[k].surf|
    ensures var frames, t := Recorded(cfg, s), s.trace[k];
      && |frames| == |s.trace| && |frames[k].surfaces| == |t.surf|
      && frames[k].authVersion == t.srvVer && frames[k].authKeys == |t.srvData.Keys|
      && frames[k].semantics == cfg.semantics && frames[k].resync == cfg.resync
      && frames[k].surfaces[i].status == StatusOf(t.surf[i], t.srvVer)
      && frames[k].surfaces[i].version == t.surf[i].version
      && frames[k].surfaces[i].bufferUsed == t.surf[i].buf
      && frames[k].surfaces[i].bufferCap == cfg.buffer
  {
  }

  lemma VerdictExact(cfg: Config, writes: seq<Write>, t: Instant, n: nat)
    requires InstantSound(writes, t)
    ensures FrameFor(cfg, t, n).converged
       <==> Converged(Authoritative(t.srvData, t.srvVer), ViewsOf(t.surf))
  {
    var auth, views := Authoritative(t.srvData, t.srvVer), ViewsOf(t.surf);
    forall i | 0 <= i < |t.surf| ensures StatusOf(t.surf[i], t.srvVer) == Synced <==> Presents(auth, views[i]) {
      SyncedIsConverged(writes, t.surf[i], t.srvVer);
    }
  }

  lemma {:induction false} NoOrderingViolations(surf: seq<Surface>, step: int, n: nat)
    requires n <= |surf| && forall i :: 0 <= i < |surf| ==> NonDecreasing(surf[i].history)
    ensures OrderingViolations(surf, step, n) == []
  {
    if n > 0 {
      NoOrderingViolations(surf, step, n - 1);
    }
  }

  /** A safe state is never reported for ordering, and is reported for
      convergence exactly when it has not converged. */
  lemma FinishReports(cfg: Config, s: State, fanned: nat)
    requires Safe(cfg, s, fanned)
    ensures Finish(s).violations ==
      if Converged(Authoritative(s.srvData, s.srvVer), ViewsOf(s.surf)) then [] else [Violation(s.step, Convergence)]
  {
    forall i | 0 <= i < |s.surf| ensures NonDecreasing(s.surf[i].history) {
      assert SurfaceSound(s.writes, s.surf[i], Upto(|s.writes|, fanned, i));
    }
    NoOrderingViolations(s.surf, s.step, |s.surf|);
  }

  // --------------------------------------------------- the last frame is current

  /** The latest instant shows the present server and surfaces; only buffers,
      and gap flags of surfaces that are behind, may have moved since. */
  ghost predicate Current(s: State) {
    && |s.trace| > 0
    && var t := s.trace[|s.trace| - 1];
      && t.srvVer == s.srvVer && t.srvData == s.srvData
      && |t.surf| == |s.surf|
      && forall i :: 0 <= i < |s.surf| ==> t.surf[i].version == s.surf[i].version && t.surf[i].data == s.surf[i].data
  }

  lemma FateCurrent(cfg: Config, s: State, i: nat, ev: Event, fate: Fate)
    requires i < |s.surf| && Current(s)
    ensures Current(ApplyFate(cfg, s, i, ev, fate))
  {
  }

  lemma HandleCurrent(cfg: Config, s: State, d: Delivery)
    requires d.surface < |s.surf| && Current(s)
    ensures Current(Handle(cfg, s, d))
  {
  }

  lemma CurrentViews(s: State)
    requires Current(s)
    ensures ViewsOf(s.trace[|s.trace| - 1].surf) == ViewsOf(s.surf)
  {
  }
}
