/** The simulation engine in the form of the source: one object whose methods
    update its fields, with an observer that records a frame at each action.
    Each method is proved to do to the object's fields what the function of the
    same name in SimModel does to a state. */
module SimKernel {
  import opened Options
  import opened SimModel
  import opened SimSafety
  import opened SimDrain
  import opened SimTrace
  import opened Invariants

  /** The queue names existing surfaces and is in the order of scheduling. */
  ghost predicate Orderly(s: State) {
    Addressed(s) && Sorted(s.queue) && forall d :: d in s.queue ==> d.seqNo < s.seqNo
  }

  class Kernel {
    const cfg: Config
    const tape: Tape
    var pos: nat
    var step: int
    var seqNo: nat
    var srvData: Data
    var srvVer: nat
    var surf: seq<Surface>
    var queue: seq<Delivery>
    var logged: nat
    var frames: seq<Frame>
    ghost var writes: seq<Write>
    ghost var sched: seq<Delivery>
    ghost var handled: seq<Handled>
    ghost var instants: seq<Instant>

    ghost function View(): State
      reads this
    {
      State(pos, step, seqNo, srvData, srvVer, surf, queue, writes, sched, handled, instants)
    }

    ghost predicate Valid()
      reads this
    {
      && Normalised(cfg)
      && |surf| == cfg.surfaces
      && Orderly(View())
      && logged == |instants|
      && frames == FramesOf(cfg, instants)
    }

    constructor (c: Config, t: Tape)
      ensures Valid() && cfg == WithDefaults(c) && tape == t
      ensures View() == Fresh(cfg)
    {
      DefaultsNormalise(c);
      var normal := WithDefaults(c);
      cfg := normal;
      tape := t;
      pos, step, seqNo, srvData, srvVer := 0, 0, 0, map[], 0;
      surf := seq(normal.surfaces, _ => Surface(true, 0, map[], 0, false, []));
      queue, logged, frames := [], 0, [];
      writes, sched, handled, instants := [], [], [], [];
    }

    // ------------------------------------------------------------ small effects

    method FrameNow(a: Action) returns (f: Frame)
      ensures f == FrameFor(cfg, Instant(a, srvData, srvVer, surf), logged)
    {
      var shown: seq<SurfaceState> := [];
      var converged := true;
      for i := 0 to |surf|
        invariant |shown| == i && forall j :: 0 <= j < i ==> shown[j] == StateOf(cfg, surf[j], srvVer)
        invariant converged <==> forall j :: 0 <= j < i ==> StatusOf(surf[j], srvVer) == Synced
      {
        var st := StatusOf(surf[i], srvVer);
        if st != Synced {
          converged := false;
        }
        shown := shown + [SurfaceState(st, surf[i].version, surf[i].buf, cfg.buffer)];
      }
      f := Frame(logged, 0, a, srvVer, |srvData|, shown, cfg.semantics, cfg.resync, converged, false, false);
    }

    method Emit(kind: ActionKind, surface: int, version: nat)
      requires Valid()
      modifies this
      ensures Valid() && View() == SimModel.Emit(old(View()), kind, surface, version)
    {
      logged := logged + 1;
      var f := FrameNow(Action(kind, surface, version));
      frames := frames + [f];
      instants := instants + [Instant(Action(kind, surface, version), srvData, srvVer, surf)];
    }

    method Schedule(at: int, i: nat, p: Payload)
      requires Valid() && i < |surf|
      modifies this
      ensures Valid() && View() == SimModel.Schedule(old(View()), at, i, p)
    {
      var d := Delivery(at, seqNo, i, p);
      seqNo := seqNo + 1;
      queue := queue + [d];
      sched := sched + [d];
    }

    method Set(i: nat, sf: Surface)
      requires Valid() && i < |surf|
      modifies this
      ensures Valid() && View() == Update(old(View()), i, sf)
    {
      surf := surf[i := sf];
    }

    method Hydrate(i: nat)
      requires Valid() && i < |surf|
      modifies this
      ensures Valid() && View() == SimModel.Hydrate(old(View()), i)
    {
      Set(i, Surface(true, 0, srvData, srvVer, false, surf[i].history + [srvVer]));
    }

    method Reconnect(i: nat)
      requires Valid() && i < |surf|
      modifies this
      ensures Valid() && View() == SimModel.Reconnect(old(View()), i)
    {
      Hydrate(i);
      Emit(ActReconnect, i, srvVer);
    }

    method Miss(i: nat)
      requires Valid() && i < |surf|
      modifies this
      ensures Valid() && View() == SimModel.Miss(cfg, old(View()), i)
    {
      Set(i, surf[i].(gap := true));
      if cfg.resync {
        Schedule(step + 1 + cfg.faults.reconnectAfter, i, Reconnection);
      }
    }

    // ------------------------------------------------------------------- fan-out

    /** A draw below the rate; only made, and the source only advanced, when the rate is positive. */
    method Chance(rate: real) returns (hit: bool)
      requires Valid()
      modifies this
      ensures Valid() && View() == old(View()).(pos := Flip(tape, old(pos), rate).1)
      ensures hit == Flip(tape, old(pos), rate).0
    {
      hit := false;
      if rate > 0.0 {
        hit := tape.coin(pos) < rate;
        pos := pos + 1;
      }
    }

    method IntN(n: int) returns (r: nat)
      requires Valid() && n >= 1
      modifies this
      ensures Valid() && View() == old(View()).(pos := old(pos) + 1)
      ensures r == tape.number(old(pos)) % n
    {
      r := tape.number(pos) % n;
      pos := pos + 1;
    }

    /** The rest of the fan-out for an event that gets past the drops. */
    method Send(i: nat, ev: Event)
      requires Valid() && i < |surf|
      modifies this
      ensures Valid()
      ensures var (fate, p) := DrawSent(cfg, tape, old(pos));
        View() == ApplyFate(cfg, old(View()).(pos := p), i, ev, fate)
    {
      hide SimModel.Emit, Orderly, FramesOf;
      ghost var s := View();
      ghost var sf := surf[i].(buf := surf[i].buf + 1);
      Set(i, surf[i].(buf := surf[i].buf + 1));
      var at := step;
      var late := Chance(cfg.faults.delayRate);
      if late {
        var delay := IntN(cfg.faults.delayMax);
        at := at + 1 + delay;
      }
      Schedule(at, i, Carry(ev));
      var twice := Chance(cfg.faults.duplicateRate);
      assert View() == SimModel.Schedule(Update(s.(pos := pos), i, sf), at, i, Carry(ev));
      hide Update;
      if twice {
        Schedule(at, i, Carry(ev));
        Emit(ActDuplicate, i, ev.version);
      }
    }

    method FanOut(i: nat, ev: Event)
      requires Valid() && i < |surf|
      modifies this
      ensures Valid() && View() == SimModel.FanOut(cfg, tape, old(View()), i, ev)
    {
      hide SimModel.Emit, SimModel.Miss, Orderly, FramesOf;
      var f := cfg.faults;
      var sf := surf[i];
      if sf.connected {
        var parted := Chance(f.partitionRate);
        if parted {
          Set(i, sf.(connected := false, buf := 0, gap := true));
          Emit(ActPartition, i, ev.version);
          if cfg.resync {
            Schedule(step + f.reconnectAfter, i, Reconnection);
          }
          return;
        }
      }
      if !sf.connected {
        return;
      }
      var dropped := Chance(f.dropRate);
      if dropped {
        Emit(ActDrop, i, ev.version);
        Miss(i);
        return;
      }
      if sf.buf >= cfg.buffer {
        Emit(ActDrop, i, ev.version);
        Miss(i);
        return;
      }
      Send(i, ev);
    }

    method ApplyWrite()
      requires Valid()
      modifies this
      ensures Valid() && View() == SimModel.ApplyWrite(cfg, tape, old(View()))
    {
      hide SimModel.FanOut, FrameFor, FramesOf;
      var key := IntN(cfg.keyspace);
      srvVer := srvVer + 1;
      srvData := srvData[key := srvVer];
      writes := writes + [Write(key, srvVer)];
      Emit(ActWrite, -1, srvVer);
      ghost var begun := View();
      var ev := if cfg.semantics == Snapshot then SnapshotEvent(srvVer, srvData) else DeltaEvent(srvVer, key, srvVer);
      for i := 0 to |surf|
        invariant Valid() && |surf| == cfg.surfaces
        invariant View() == FanOutTo(cfg, tape, begun, ev, i)
      {
        FanOut(i, ev);
      }
    }

    // ------------------------------------------------------------------ delivery

    method Deliver(i: nat, ev: Event)
      requires Valid() && i < |surf|
      modifies this
      ensures Valid() && View() == SimModel.Deliver(cfg, old(View()), i, ev)
    {
      var sf := surf[i];
      if sf.buf > 0 {
        sf := sf.(buf := sf.buf - 1);
      }
      Set(i, sf);
      if !sf.connected {
        return;
      }
      match ev {
        case SnapshotEvent(v, snap) =>
          if v > sf.version {
            Set(i, sf.(data := snap, version := v, gap := false, history := sf.history + [v]));
            Emit(ActDeliver, i, v);
          }
        case DeltaEvent(v, key, val) =>
          if v <= sf.version {
            // stale or duplicate
          } else if v == sf.version + 1 && !sf.gap {
            Set(i, sf.(data := sf.data[key := val], version := v, history := sf.history + [v]));
            Emit(ActDeliver, i, v);
          } else {
            Set(i, sf.(gap := true));
            Emit(ActGap, i, v);
            Miss(i);
          }
      }
    }

    /** The position of the due item with the smallest sequence number, -1 if none is due. */
    method NextDue() returns (idx: int)
      requires Valid()
      ensures idx == if FirstDue(queue, step) == |queue| then -1 else FirstDue(queue, step)
    {
      idx := -1;
      for j := 0 to |queue|
        invariant -1 <= idx < j
        invariant idx == -1 ==> forall m :: 0 <= m < j ==> !Due(queue[m], step)
        invariant idx != -1 ==> Due(queue[idx], step)
        invariant idx != -1 ==> forall m :: 0 <= m < j && Due(queue[m], step) ==> queue[idx].seqNo <= queue[m].seqNo
      {
        var d := queue[j];
        if d.at <= step {
          if idx == -1 || d.seqNo < queue[idx].seqNo {
            idx := j;
          }
        }
      }
      if idx != -1 {
        FirstDueIsEarliest(queue, step, idx);
      }
    }

    method Process(idx: nat)
      requires Valid() && idx < |queue|
      modifies this
      ensures Valid() && View() == SimModel.Process(cfg, old(View()), idx)
    {
      var d := queue[idx];
      TakeSorted(queue, idx);
      queue := queue[..idx] + queue[idx + 1..];
      handled := handled + [Handled(d, step)];
      match d.payload {
        case Reconnection => Reconnect(d.surface);
        case Carry(ev) => Deliver(d.surface, ev);
      }
    }

    method DrainDue()
      requires Valid()
      modifies this
      ensures Valid() && View() == Drain(cfg, old(View()))
      ensures cfg.faults.reconnectAfter >= 0 ==> View() == HandleDue(cfg, old(View()))
    {
      if cfg.faults.reconnectAfter >= 0 {
        DrainHandlesDue(cfg, View());
      }
      while true
        invariant Valid()
        invariant Drain(cfg, View()) == Drain(cfg, old(View()))
        decreases Work(queue)
      {
        var idx := NextDue();
        if idx == -1 {
          return;
        }
        ProcessShrinks(cfg, View(), idx);
        Process(idx);
      }
    }

    // ----------------------------------------------------------------------- run

    method Finish() returns (res: Result)
      requires Valid()
      ensures res == SimTrace.Finish(View())
    {
      var auth := Authoritative(srvData, srvVer);
      var views := ViewsOf(surf);
      var violations: seq<Violation> := [];
      for i := 0 to |surf|
        invariant violations == OrderingViolations(surf, step, i)
      {
        var err := CheckMonotonic(surf[i].history);
        if err.Some? {
          violations := violations + [Violation(step, MonotonicVersion)];
        }
      }
      var err := CheckConvergence(auth, views);
      if err.Some? {
        violations := violations + [Violation(step, Convergence)];
      }
      res := Result(step, auth, views, violations);
    }

    /** Every surface connects and hydrates the empty snapshot. */
    method ConnectAll()
      requires Valid() && View() == Fresh(cfg)
      modifies this
      ensures Valid() && View() == AfterWrites(cfg, tape, 0)
    {
      hide SimModel.Emit, Fresh, FramesOf, Orderly;
      for i := 0 to |surf|
        invariant Valid() && View() == Connect(Fresh(cfg), i)
      {
        Hydrate(i);
        Emit(ActHydrate, i, srvVer);
      }
    }

    /** One write per step, each followed by a drain of what is due. */
    method WriteAll()
      requires Valid() && View() == AfterWrites(cfg, tape, 0)
      modifies this
      ensures Valid() && View() == AfterWrites(cfg, tape, WriteCount(cfg))
    {
      hide SimModel.ApplyWrite, Drain, HandleDue, AfterWrites, FramesOf;
      var w := 0;
      while w < cfg.writes
        invariant Valid() && 0 <= w <= WriteCount(cfg)
        invariant View() == AfterWrites(cfg, tape, w)
      {
        OneMoreWrite(cfg, tape, w);
        step := step + 1;
        ApplyWrite();
        DrainDue();
        w := w + 1;
      }
    }

    /** Drain everything still in flight. */
    method SettleAll()
      requires Valid() && NothingDue(View())
      modifies this
      ensures Valid() && View() == Settle(cfg, old(View()))
    {
      hide Drain, HandleDue, FramesOf, Work, Wait, NothingDue;
      while |queue| > 0
        invariant Valid() && NothingDue(View())
        invariant Settle(cfg, View()) == Settle(cfg, old(View()))
        decreases Work(queue), Wait(View())
      {
        AdvanceProgress(cfg, View());
        step := step + 1;
        DrainDue();
      }
    }

    /** Any surface still behind reconnects now. */
    method QuiesceAll()
      requires Valid()
      modifies this
      ensures Valid() && View() == Quiesce(old(View()), cfg.surfaces)
    {
      hide SimModel.Reconnect, FramesOf;
      for i := 0 to |surf|
        invariant Valid() && View() == Quiesce(old(View()), i)
      {
        if !surf[i].connected || surf[i].gap || surf[i].version != srvVer {
          step := step + 1;
          Reconnect(i);
        }
      }
    }

    /** A fresh kernel runs to the final state, and reports on it. */
    method Run() returns (res: Result)
      requires Valid() && View() == Fresh(cfg)
      modifies this
      ensures Valid() && View() == Final(cfg, tape)
      ensures res == SimTrace.Finish(Final(cfg, tape))
    {
      hide AfterWrites, Fresh, Settle, Quiesce, SimTrace.Finish, FramesOf;
      ConnectAll();
      WriteAll();
      SettleAll();
      if cfg.resync {
        QuiesceAll();
      }
      res := Finish();
    }
  }

  /** Run a configuration to completion with an observer, then stamp the count
      and the terminal verdict on the frames. */
  method Record(c: Config, t: Tape) returns (frames: seq<Frame>, res: Result)
    ensures Normalised(WithDefaults(c))
    ensures res == SimTrace.Finish(Final(WithDefaults(c), t))
    ensures frames == Recorded(WithDefaults(c), Final(WithDefaults(c), t))
  {
    hide Final, SimTrace.Finish, Fresh, Sorted, Addressed, WithDefaults, Normalised;
    DefaultsNormalise(c);
    var k := new Kernel(c, t);
    res := k.Run();
    frames := k.frames;
    var total := |frames|;
    for i := 0 to total
      invariant |frames| == total
      invariant forall j :: 0 <= j < total ==>
        frames[j] == if j < i then k.frames[j].(total := total) else k.frames[j]
    {
      frames := frames[i := frames[i].(total := total)];
    }
    if total > 0 {
      frames := frames[total - 1 := frames[total - 1].(isFinal := true, violated := res.violations != [])];
    }
    assert frames == Stamped(k.frames, res.violations != []);
  }
}
