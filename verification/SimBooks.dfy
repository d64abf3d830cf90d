/** Accounting over a run: every fault is paid for by exactly one reconnect,
    every scheduled delivery is processed exactly once, nothing is processed
    late, and the work and the clock stay within bounds fixed by the
    configuration. */
module SimBooks {
  import opened SimModel
  import opened SimSafety

  // ---------------------------------------------------------- faults, recoveries

  /** How many instants of a trace show an action of the given kind. */
  function Count(trace: seq<Instant>, kind: ActionKind): nat {
    if |trace| == 0 then 0
    else Count(trace[..|trace| - 1], kind) + if trace[|trace| - 1].action.kind == kind then 1 else 0
  }

  lemma CountAppend(trace: seq<Instant>, t: Instant, kind: ActionKind)
    ensures Count(trace + [t], kind) == Count(trace, kind) + if t.action.kind == kind then 1 else 0
  {
    assert (trace + [t])[..|trace + [t]| - 1] == trace;
  }

  function Faults(trace: seq<Instant>): nat {
    Count(trace, ActDrop) + Count(trace, ActPartition) + Count(trace, ActGap)
  }

  lemma EmitCounts(s: State, kind: ActionKind, surface: int, version: nat)
    ensures forall k :: Count(Emit(s, kind, surface, version).trace, k)
                        == Count(s.trace, k) + if k == kind then 1 else 0
  {
    var t := Instant(Action(kind, surface, version), s.srvData, s.srvVer, s.surf);
    forall k ensures Count(Emit(s, kind, surface, version).trace, k)
                     == Count(s.trace, k) + if k == kind then 1 else 0
    {
      CountAppend(s.trace, t, k);
    }
  }

  /** Items of a queue that satisfy a test. */
  function Tally(q: seq<Delivery>, test: Delivery -> bool): nat {
    if |q| == 0 then 0 else Tally(q[..|q| - 1], test) + if test(q[|q| - 1]) then 1 else 0
  }

  lemma {:induction false} TallyConcat(a: seq<Delivery>, b: seq<Delivery>, test: Delivery -> bool)
    ensures Tally(a + b, test) == Tally(a, test) + Tally(b, test)
  {
    if |b| == 0 {
      assert a + b == a;
    } else {
      assert (a + b)[..|a + b| - 1] == a + b[..|b| - 1];
      TallyConcat(a, b[..|b| - 1], test);
    }
  }

  lemma TallyAppend(q: seq<Delivery>, d: Delivery, test: Delivery -> bool)
    ensures Tally(q + [d], test) == Tally(q, test) + if test(d) then 1 else 0
  {
    assert (q + [d])[..|q + [d]| - 1] == q;
  }

  lemma TallyTake(q: seq<Delivery>, idx: nat, test: Delivery -> bool)
    requires idx < |q|
    ensures Tally(q[..idx] + q[idx + 1..], test) + (if test(q[idx]) then 1 else 0) == Tally(q, test)
  {
    hide Tally;
    var a, d, b := q[..idx], q[idx], q[idx + 1..];
    assert q == a + [d] + b;
    TallyConcat(a + [d], b, test);
    TallyAppend(a, d, test);
    TallyConcat(a, b, test);
  }

  function IsReconnection(): Delivery -> bool { (d: Delivery) => d.payload.Reconnection? }

  function IsEventFor(i: nat): Delivery -> bool { (d: Delivery) => d.payload.Carry? && d.surface == i }

  function Awaited(q: seq<Delivery>): nat { Tally(q, IsReconnection()) }

  function InFlight(q: seq<Delivery>, i: nat): nat { Tally(q, IsEventFor(i)) }

  /** Under resync each fault has had its reconnect or has it queued. */
  ghost predicate Balanced(cfg: Config, s: State) {
    if cfg.resync then Count(s.trace, ActReconnect) + Awaited(s.queue) == Faults(s.trace)
    else Count(s.trace, ActReconnect) == 0
  }

  lemma MissBalanced(cfg: Config, s: State, i: nat)
    requires i < |s.surf|
    ensures Miss(cfg, s, i).trace == s.trace
    ensures Awaited(Miss(cfg, s, i).queue) == Awaited(s.queue) + if cfg.resync then 1 else 0
  {
    TallyAppend(s.queue, Delivery(s.step + 1 + cfg.faults.reconnectAfter, s.seqNo, i, Reconnection), IsReconnection());
  }

  lemma DropBalanced(cfg: Config, s: State, i: nat, v: nat)
    requires i < |s.surf| && Balanced(cfg, s)
    ensures Balanced(cfg, Miss(cfg, Emit(s, ActDrop, i, v), i))
  {
    EmitCounts(s, ActDrop, i, v);
    MissBalanced(cfg, Emit(s, ActDrop, i, v), i);
  }

  lemma ScheduleBalanced(cfg: Config, s: State, at: int, i: nat, ev: Event)
    requires Balanced(cfg, s)
    ensures Balanced(cfg, Schedule(s, at, i, Carry(ev)))
  {
    TallyAppend(s.queue, Delivery(at, s.seqNo, i, Carry(ev)), IsReconnection());
  }

  lemma PartitionBalanced(cfg: Config, s: State, i: nat, sf: Surface, v: nat)
    requires i < |s.surf| && Balanced(cfg, s)
    ensures var s1 := Emit(Update(s, i, sf), ActPartition, i, v);
      Balanced(cfg, if cfg.resync then Schedule(s1, s.step + cfg.faults.reconnectAfter, i, Reconnection) else s1)
  {
    EmitCounts(Update(s, i, sf), ActPartition, i, v);
    TallyAppend(s.queue, Delivery(s.step + cfg.faults.reconnectAfter, s.seqNo, i, Reconnection), IsReconnection());
  }

  lemma SentBalanced(cfg: Config, s: State, i: nat, ev: Event, delay: nat, twice: bool)
    requires i < |s.surf| && Balanced(cfg, s)
    ensures Balanced(cfg, ApplyFate(cfg, s, i, ev, Sent(delay, twice)))
  {
    var s0 := Update(s, i, s.surf[i].(buf := s.surf[i].buf + 1));
    assert Balanced(cfg, s0);
    var s1 := Schedule(s0, s.step + delay, i, Carry(ev));
    var s2 := Schedule(s1, s.step + delay, i, Carry(ev));
    var r := ApplyFate(cfg, s, i, ev, Sent(delay, twice));
    assert r == if twice then Emit(s2, ActDuplicate, i, ev.version) else s1;
    assert twice ==> r.queue == s2.queue;
    hide Schedule, ApplyFate, Tally, Count;
    ScheduleBalanced(cfg, s0, s.step + delay, i, ev);
    if twice {
      ScheduleBalanced(cfg, s1, s.step + delay, i, ev);
      EmitCounts(s2, ActDuplicate, i, ev.version);
    }
  }

  lemma LostBalanced(cfg: Config, s: State, i: nat, ev: Event, fate: Fate)
    requires i < |s.surf| && Balanced(cfg, s) && !fate.Sent?
    ensures Balanced(cfg, ApplyFate(cfg, s, i, ev, fate))
  {
    if fate.Partitioned? {
      PartitionBalanced(cfg, s, i, s.surf[i].(connected := false, buf := 0, gap := true), ev.version);
    } else if !fate.Dark? {
      DropBalanced(cfg, s, i, ev.version);
    }
  }

  lemma GapBalanced(cfg: Config, s: State, i: nat, v: nat)
    requires i < |s.surf|
    ensures var r := Miss(cfg, Emit(s, ActGap, i, v), i);
      && Count(r.trace, ActReconnect) == Count(s.trace, ActReconnect)
      && (cfg.resync ==> Awaited(r.queue) + Faults(s.trace) == Awaited(s.queue) + Faults(r.trace))
  {
    EmitCounts(s, ActGap, i, v);
    MissBalanced(cfg, Emit(s, ActGap, i, v), i);
  }

  lemma DeliverBalanced(cfg: Config, s: State, i: nat, ev: Event)
    requires i < |s.surf|
    ensures var r := Deliver(cfg, s, i, ev);
      && Count(r.trace, ActReconnect) == Count(s.trace, ActReconnect)
      && (cfg.resync ==> Awaited(r.queue) + Faults(s.trace) == Awaited(s.queue) + Faults(r.trace))
  {
    hide Count, Awaited, Miss, Emit;
    var sf := s.surf[i].(buf := if s.surf[i].buf > 0 then s.surf[i].buf - 1 else 0);
    var s1 := Update(s, i, sf);
    if sf.connected && ev.version > sf.version {
      if ev.SnapshotEvent? {
        EmitCounts(Update(s1, i, sf.(data := ev.snapshot, version := ev.version, gap := false,
                                     history := sf.history + [ev.version])), ActDeliver, i, ev.version);
      } else if ev.version == sf.version + 1 && !sf.gap {
        EmitCounts(Update(s1, i, sf.(data := sf.data[ev.key := ev.val], version := ev.version,
                                     history := sf.history + [ev.version])), ActDeliver, i, ev.version);
      } else {
        GapBalanced(cfg, Update(s1, i, sf.(gap := true)), i, ev.version);
      }
    }
  }

  lemma ProcessBalanced(cfg: Config, s: State, idx: nat)
    requires idx < |s.queue| && Addressed(s) && Balanced(cfg, s)
    requires s.queue[idx].payload.Reconnection? ==> cfg.resync
    ensures Balanced(cfg, Process(cfg, s, idx))
  {
    hide Tally, Deliver, Count;
    var d := s.queue[idx];
    var s1 := Taken(s, idx);
    TallyTake(s.queue, idx, IsReconnection());
    match d.payload
    case Reconnection => EmitCounts(Hydrate(s1, d.surface), ActReconnect, d.surface, s.srvVer);
    case Carry(ev) => DeliverBalanced(cfg, s1, d.surface, ev);
  }

  // --------------------------------------------------------------- exactly once

  function Deliveries(h: seq<Handled>): seq<Delivery> {
    seq(|h|, k requires 0 <= k < |h| => h[k].delivery)
  }

  /** What was scheduled is what is queued together with what was processed. */
  ghost predicate Conserved(s: State) {
    && |s.sched| == s.seqNo
    && multiset(s.sched) == multiset(s.queue) + multiset(Deliveries(s.handled))
  }

  /** Items put on the queue are put on the log of scheduled items. */
  lemma ExtendConserved(s: State, r: State, added: seq<Delivery>)
    requires Conserved(s) && r.seqNo == s.seqNo + |added|
    requires r.sched == s.sched + added && r.queue == s.queue + added && r.handled == s.handled
    ensures Conserved(r)
  {
  }

  lemma FateConserved(cfg: Config, s: State, i: nat, ev: Event, fate: Fate)
    requires i < |s.surf| && Conserved(s)
    ensures Conserved(ApplyFate(cfg, s, i, ev, fate))
  {
    FateEffect(cfg, s, i, ev, fate);
    ExtendConserved(s, ApplyFate(cfg, s, i, ev, fate), FateAdds(cfg, s, i, ev, fate));
  }

  lemma TakenConserved(s: State, idx: nat)
    requires idx < |s.queue| && Conserved(s)
    ensures Conserved(Taken(s, idx))
  {
    var d := s.queue[idx];
    assert s.queue == s.queue[..idx] + [d] + s.queue[idx + 1..];
    assert Deliveries(s.handled + [Handled(d, s.step)]) == Deliveries(s.handled) + [d];
  }

  lemma ProcessConserved(cfg: Config, s: State, idx: nat)
    requires idx < |s.queue| && Addressed(s) && Conserved(s)
    ensures Conserved(Process(cfg, s, idx))
  {
    TakenConserved(s, idx);
    hide Handle, Conserved, Taken, Aftermath;
    var d := s.queue[idx];
    HandleEffect(cfg, Taken(s, idx), d);
    ExtendConserved(Taken(s, idx), Process(cfg, s, idx), Aftermath(cfg, Taken(s, idx), d));
  }

  // --------------------------------------------------------------------- timing

  /** Steps a missed event may add beyond the delay of the network. */
  function RecoveryDelay(cfg: Config): nat {
    if cfg.faults.reconnectAfter >= 0 then cfg.faults.reconnectAfter + 1 else 0
  }

  function Horizon(cfg: Config, srvVer: nat): nat { srvVer + MaxDelay(cfg) + RecoveryDelay(cfg) }

  /** Items that are never overdue: all of them, unless reconnects are set in the past. */
  predicate Punctual(cfg: Config, d: Delivery) { d.payload.Carry? || cfg.faults.reconnectAfter >= 0 }

  ghost predicate OnTime(cfg: Config, s: State, d: Delivery) {
    && (Punctual(cfg, d) ==> s.step <= d.at)
    && d.at <= if d.payload.Carry? then d.payload.ev.version + MaxDelay(cfg) else Horizon(cfg, s.srvVer)
  }

  ghost predicate HandledOnTime(cfg: Config, h: Handled) {
    h.delivery.at <= h.step && (Punctual(cfg, h.delivery) ==> h.step == h.delivery.at)
  }

  ghost predicate Timely(cfg: Config, s: State) {
    && s.srvVer <= s.step <= Horizon(cfg, s.srvVer)
    && (forall d :: d in s.queue ==> OnTime(cfg, s, d))
    && (forall k :: 0 <= k < |s.handled| ==> HandledOnTime(cfg, s.handled[k]))
  }

  lemma FateTimely(cfg: Config, s: State, i: nat, ev: Event, fate: Fate)
    requires Normalised(cfg) && i < |s.surf| && Possible(cfg, s.surf[i], fate)
    requires s.step == s.srvVer == ev.version && Timely(cfg, s)
    ensures Timely(cfg, ApplyFate(cfg, s, i, ev, fate))
  {
  }

  lemma BeginTimely(cfg: Config, s: State, key: nat)
    requires Timely(cfg, s) && NothingDue(s) && s.step == s.srvVer
    ensures Timely(cfg, BeginWrite(s.(step := s.step + 1), key))
  {
    var r := BeginWrite(s.(step := s.step + 1), key);
    forall d | d in r.queue ensures OnTime(cfg, r, d) {
      assert OnTime(cfg, s, d) && !Due(d, s.step);
    }
  }

  lemma TickTimely(cfg: Config, s: State)
    requires Safe(cfg, s, |s.surf|) && Timely(cfg, s) && NothingDue(s) && |s.queue| > 0
    ensures Timely(cfg, s.(step := s.step + 1))
  {
    var r := s.(step := s.step + 1);
    var d := s.queue[0];
    assert OnTime(cfg, s, d) && !Due(d, s.step) && Faithful(cfg, s.writes, s.seqNo, d);
    forall e | e in r.queue ensures OnTime(cfg, r, e) {
      assert OnTime(cfg, s, e) && !Due(e, s.step);
    }
  }

  lemma ProcessTimely(cfg: Config, s: State, idx: nat)
    requires Safe(cfg, s, |s.surf|) && idx < |s.queue| && Addressed(s)
    requires Due(s.queue[idx], s.step) && Timely(cfg, s)
    ensures Timely(cfg, Process(cfg, s, idx))
  {
    var d := s.queue[idx];
    assert OnTime(cfg, s, d) && Faithful(cfg, s.writes, s.seqNo, d);
    var rest := s.queue[..idx] + s.queue[idx + 1..];
    var r := Process(cfg, s, idx);
    forall e | e in r.queue ensures OnTime(cfg, r, e) {
      if e in rest {
        assert e in s.queue && OnTime(cfg, s, e);
      } else {
        assert d.payload.Carry?;
        assert e == Delivery(s.step + 1 + cfg.faults.reconnectAfter, s.seqNo, d.surface, Reconnection);
      }
    }
  }

  // ------------------------------------------------------------------- workload

  /** (write, surface) pairs that the fan-out has gone through. */
  function FannedOut(cfg: Config, s: State, fanned: nat): int
  {
    cfg.surfaces * s.srvVer - (cfg.surfaces - fanned)
  }

  /** Each pair costs at most four deliveries, past and future. */
  ghost predicate WithinBudget(cfg: Config, s: State, fanned: nat) {
    |s.handled| + Work(s.queue) <= 4 * if s.srvVer == 0 then 0 else FannedOut(cfg, s, fanned)
  }

  lemma AddsWork(cfg: Config, s: State, i: nat, ev: Event, fate: Fate)
    ensures Work(FateAdds(cfg, s, i, ev, fate)) <= 4
  {
    var added := FateAdds(cfg, s, i, ev, fate);
    if |added| == 1 {
      assert added == [] + [added[0]];
      WorkAppend([], added[0]);
    } else if |added| == 2 {
      assert added == [added[0]] + [added[1]] && [added[0]] == [] + [added[0]];
      WorkAppend([added[0]], added[1]);
      WorkAppend([], added[0]);
    }
  }

  lemma FateBudget(cfg: Config, s: State, i: nat, ev: Event, fate: Fate)
    requires i < |s.surf| && s.srvVer >= 1 && WithinBudget(cfg, s, i)
    ensures WithinBudget(cfg, ApplyFate(cfg, s, i, ev, fate), i + 1)
  {
    hide ApplyFate, FateAdds, Work;
    FateEffect(cfg, s, i, ev, fate);
    AddsWork(cfg, s, i, ev, fate);
    WorkConcat(s.queue, FateAdds(cfg, s, i, ev, fate));
  }

  lemma BeginBudget(cfg: Config, s: State, key: nat)
    requires cfg.surfaces >= 0 && WithinBudget(cfg, s, |s.surf|) && |s.surf| == cfg.surfaces
    ensures WithinBudget(cfg, BeginWrite(s, key), 0)
  {
    var r := BeginWrite(s, key);
    assert cfg.surfaces * r.srvVer == cfg.surfaces * s.srvVer + cfg.surfaces;
  }

  lemma ProcessBudget(cfg: Config, s: State, idx: nat)
    requires idx < |s.queue| && Addressed(s) && WithinBudget(cfg, s, |s.surf|)
    ensures WithinBudget(cfg, Process(cfg, s, idx), |s.surf|)
  {
    ProcessShrinks(cfg, s, idx);
  }

  // -------------------------------------------------------------------- buffers

  /** A surface's buffer never overflows, nor counts more than is in flight. */
  ghost predicate Buffered(cfg: Config, s: State) {
    forall i :: 0 <= i < |s.surf| ==> s.surf[i].buf <= cfg.buffer && s.surf[i].buf <= InFlight(s.queue, i)
  }

  lemma AddsInFlight(cfg: Config, s: State, i: nat, ev: Event, fate: Fate, j: nat)
    ensures fate.Sent? && i == j ==> InFlight(FateAdds(cfg, s, i, ev, fate), j) >= 1
  {
    var added := FateAdds(cfg, s, i, ev, fate);
    if fate.Sent? {
      var a := added[..|added| - 1];
      assert added == a + [added[|added| - 1]];
      TallyAppend(a, added[|added| - 1], IsEventFor(j));
    }
  }

  lemma FateBuffered(cfg: Config, s: State, i: nat, ev: Event, fate: Fate)
    requires i < |s.surf| && Possible(cfg, s.surf[i], fate) && Buffered(cfg, s)
    ensures Buffered(cfg, ApplyFate(cfg, s, i, ev, fate))
  {
    var r := ApplyFate(cfg, s, i, ev, fate);
    FateEffect(cfg, s, i, ev, fate);
    FateBuf(cfg, s, i, ev, fate);
    hide ApplyFate, FateAdds, Tally;
    forall j | 0 <= j < |r.surf|
      ensures r.surf[j].buf <= cfg.buffer && r.surf[j].buf <= InFlight(r.queue, j)
    {
      assert s.surf[j].buf <= cfg.buffer && s.surf[j].buf <= InFlight(s.queue, j);
      TallyConcat(s.queue, FateAdds(cfg, s, i, ev, fate), IsEventFor(j));
      AddsInFlight(cfg, s, i, ev, fate, j);
    }
  }

  lemma FateBuf(cfg: Config, s: State, i: nat, ev: Event, fate: Fate)
    requires i < |s.surf|
    ensures var b := s.surf[i].buf;
      ApplyFate(cfg, s, i, ev, fate).surf[i].buf
      == if fate.Sent? then b + 1 else if fate.Partitioned? then 0 else b
  {
  }

  lemma ProcessBuffered(cfg: Config, s: State, idx: nat)
    requires idx < |s.queue| && Addressed(s) && Buffered(cfg, s)
    ensures Buffered(cfg, Process(cfg, s, idx))
  {
    var d := s.queue[idx];
    var s1 := Taken(s, idx);
    var r := Process(cfg, s, idx);
    HandleEffect(cfg, s1, d);
    HandleBuf(cfg, s1, d);
    hide Handle, Aftermath, Tally;
    forall j | 0 <= j < |r.surf|
      ensures r.surf[j].buf <= cfg.buffer && r.surf[j].buf <= InFlight(r.queue, j)
    {
      TallyTake(s.queue, idx, IsEventFor(j));
      TallyConcat(s1.queue, Aftermath(cfg, s1, d), IsEventFor(j));
      assert s.surf[j].buf <= cfg.buffer && s.surf[j].buf <= InFlight(s.queue, j);
    }
  }

  lemma HandleBuf(cfg: Config, s: State, d: Delivery)
    requires d.surface < |s.surf|
    ensures var b := s.surf[d.surface].buf;
      Handle(cfg, s, d).surf[d.surface].buf
      == if d.payload.Reconnection? || b == 0 then 0 else b - 1
  {
  }
}
