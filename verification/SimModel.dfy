/** The simnet kernel as pure functions on its state: one authoritative writer,
    N surfaces, and a network that drops, delays, duplicates and partitions.
    Every random draw comes from a tape of which nothing is assumed, so a
    statement about every tape is a statement about every seed. */
module SimModel {

  // ---------------------------------------------------------------- entities

  /** Keys and values are the numbers that the labels "k<n>" and "v<n>" render. */
  type Data = map<nat, nat>

  datatype Write = Write(key: nat, val: nat)

  datatype Semantics = Snapshot | Delta

  datatype Faults = Faults(
    dropRate: real, delayRate: real, delayMax: int,
    duplicateRate: real, partitionRate: real, reconnectAfter: int)

  datatype Config = Config(
    surfaces: int, buffer: int, writes: int, keyspace: int,
    semantics: Semantics, faults: Faults, resync: bool)

  /** The random source: the n-th draw read as a float, or as a number. */
  datatype Tape = Tape(coin: nat -> real, number: nat -> nat)

  datatype Event =
    | SnapshotEvent(version: nat, snapshot: Data)
    | DeltaEvent(version: nat, key: nat, val: nat)

  datatype Payload = Reconnection | Carry(ev: Event)

  datatype Delivery = Delivery(at: int, seqNo: nat, surface: nat, payload: Payload)

  datatype Surface = Surface(
    connected: bool, buf: nat, data: Data, version: nat, gap: bool, history: seq<nat>)

  datatype ActionKind =
    ActHydrate | ActWrite | ActDeliver | ActDrop | ActDuplicate | ActGap | ActPartition | ActReconnect

  datatype Action = Action(kind: ActionKind, surface: int, version: nat)

  /** What an observer of the kernel can see at the moment of one action. */
  datatype Instant = Instant(action: Action, srvData: Data, srvVer: nat, surf: seq<Surface>)

  datatype Handled = Handled(delivery: Delivery, step: int)

  /** The kernel's state.  The last four fields are logs of the run so far:
      the writes, the deliveries ever scheduled, the deliveries processed and
      the instants an observer was shown. */
  datatype State = State(
    pos: nat, step: int, seqNo: nat, srvData: Data, srvVer: nat,
    surf: seq<Surface>, queue: seq<Delivery>,
    writes: seq<Write>, sched: seq<Delivery>, handled: seq<Handled>, trace: seq<Instant>)

  // ----------------------------------------------------------- configuration

  function WithDefaults(c: Config): Config {
    var f := c.faults;
    var f1 := if f.delayRate > 0.0 && f.delayMax < 1 then f.(delayMax := 1) else f;
    var f2 := if f.partitionRate > 0.0 && f.reconnectAfter < 1 then f1.(reconnectAfter := 1) else f1;
    c.(surfaces := if c.surfaces < 1 then 1 else c.surfaces,
       buffer := if c.buffer < 1 then 1 else c.buffer,
       keyspace := if c.keyspace < 1 then 1 else c.keyspace,
       faults := f2)
  }

  /** What withDefaults establishes, and the kernel relies on. */
  predicate Normalised(c: Config) {
    && c.surfaces >= 1 && c.buffer >= 1 && c.keyspace >= 1
    && (c.faults.delayRate > 0.0 ==> c.faults.delayMax >= 1)
    && (c.faults.partitionRate > 0.0 ==> c.faults.reconnectAfter >= 1)
  }

  /** Counts below one become one; a delay bound or a reconnect time below one does
      where its rate is positive; nothing else changes. */
  lemma DefaultsNormalise(c: Config)
    ensures Normalised(WithDefaults(c))
    ensures Normalised(c) ==> WithDefaults(c) == c
    ensures WithDefaults(c).writes == c.writes && WithDefaults(c).resync == c.resync
    ensures WithDefaults(c).semantics == c.semantics
    ensures var r, f := WithDefaults(c), c.faults;
      && r.surfaces == RaisedToOne(c.surfaces) && r.buffer == RaisedToOne(c.buffer)
      && r.keyspace == RaisedToOne(c.keyspace)
      && r.faults.dropRate == f.dropRate && r.faults.delayRate == f.delayRate
      && r.faults.duplicateRate == f.duplicateRate && r.faults.partitionRate == f.partitionRate
      && r.faults.delayMax == (if f.delayRate > 0.0 then RaisedToOne(f.delayMax) else f.delayMax)
      && r.faults.reconnectAfter == (if f.partitionRate > 0.0 then RaisedToOne(f.reconnectAfter) else f.reconnectAfter)
  {
  }

  function RaisedToOne(n: int): (r: int)
    ensures r >= 1 && r >= n && (r == n || r == 1)
  {
    if n < 1 then 1 else n
  }

  /** The authoritative map after the writes w, from the empty map. */
  function Replay(w: seq<Write>): Data {
    if |w| == 0 then map[] else Replay(w[..|w| - 1])[w[|w| - 1].key := w[|w| - 1].val]
  }

  // ------------------------------------------------------------ small effects

  function Emit(s: State, kind: ActionKind, surface: int, version: nat): (r: State)
    ensures r.step == s.step && r.srvVer == s.srvVer && r.surf == s.surf && r.queue == s.queue
  {
    s.(trace := s.trace + [Instant(Action(kind, surface, version), s.srvData, s.srvVer, s.surf)])
  }

  function Schedule(s: State, at: int, i: nat, p: Payload): State {
    var d := Delivery(at, s.seqNo, i, p);
    s.(seqNo := s.seqNo + 1, queue := s.queue + [d], sched := s.sched + [d])
  }

  function Update(s: State, i: nat, sf: Surface): State
    requires i < |s.surf|
  {
    s.(surf := s.surf[i := sf])
  }

  function Hydrate(s: State, i: nat): State
    requires i < |s.surf|
  {
    Update(s, i, Surface(true, 0, s.srvData, s.srvVer, false, s.surf[i].history + [s.srvVer]))
  }

  function Reconnect(s: State, i: nat): State
    requires i < |s.surf|
  {
    Emit(Hydrate(s, i), ActReconnect, i, s.srvVer)
  }

  function Miss(cfg: Config, s: State, i: nat): State
    requires i < |s.surf|
  {
    var s1 := Update(s, i, s.surf[i].(gap := true));
    if cfg.resync then Schedule(s1, s.step + 1 + cfg.faults.reconnectAfter, i, Reconnection) else s1
  }

  // ------------------------------------------------------------------ fan-out

  /** What the fault model decides for one event and one surface. */
  datatype Fate = Partitioned | Dark | Dropped | BufferFull | Sent(delay: nat, twice: bool)

  function Flip(tape: Tape, pos: nat, rate: real): (bool, nat) {
    if rate > 0.0 then (tape.coin(pos) < rate, pos + 1) else (false, pos)
  }

  function DrawFate(cfg: Config, tape: Tape, pos: nat, sf: Surface): (r: (Fate, nat))
    requires Normalised(cfg)
    ensures Possible(cfg, sf, r.0)
  {
    var f := cfg.faults;
    if !sf.connected then (Dark, pos) else
    var (parted, p1) := Flip(tape, pos, f.partitionRate);
    if parted then (Partitioned, p1) else
    var (dropped, p2) := Flip(tape, p1, f.dropRate);
    if dropped then (Dropped, p2) else
    if sf.buf >= cfg.buffer then (BufferFull, p2) else DrawSent(cfg, tape, p2)
  }

  /** The draws for an event that is neither lost nor dropped. */
  function DrawSent(cfg: Config, tape: Tape, pos: nat): (r: (Fate, nat))
    requires Normalised(cfg)
    ensures r.0.Sent? && r.0.delay <= MaxDelay(cfg) && (r.0.twice ==> cfg.faults.duplicateRate > 0.0)
  {
    var (late, p1) := Flip(tape, pos, cfg.faults.delayRate);
    var (delay, p2) := if late then (1 + tape.number(p1) % cfg.faults.delayMax, p1 + 1) else (0, p1);
    var (twice, p3) := Flip(tape, p2, cfg.faults.duplicateRate);
    (Sent(delay, twice), p3)
  }

  /** The fates a surface can meet under a configuration, whatever is drawn. */
  predicate Possible(cfg: Config, sf: Surface, fate: Fate) {
    match fate
    case Dark => !sf.connected
    case Partitioned => sf.connected && cfg.faults.partitionRate > 0.0
    case Dropped => sf.connected && cfg.faults.dropRate > 0.0
    case BufferFull => sf.connected && sf.buf >= cfg.buffer
    case Sent(delay, twice) =>
      && sf.connected && sf.buf < cfg.buffer
      && delay <= MaxDelay(cfg)
      && (twice ==> cfg.faults.duplicateRate > 0.0)
  }

  function MaxDelay(cfg: Config): nat {
    if cfg.faults.delayRate > 0.0 && cfg.faults.delayMax >= 0 then cfg.faults.delayMax else 0
  }

  function ApplyFate(cfg: Config, s: State, i: nat, ev: Event, fate: Fate): State
    requires i < |s.surf|
  {
    var sf := s.surf[i];
    match fate
    case Partitioned =>
      var s1 := Emit(Update(s, i, sf.(connected := false, buf := 0, gap := true)), ActPartition, i, ev.version);
      if cfg.resync then Schedule(s1, s.step + cfg.faults.reconnectAfter, i, Reconnection) else s1
    case Dark => s
    case Dropped => Miss(cfg, Emit(s, ActDrop, i, ev.version), i)
    case BufferFull => Miss(cfg, Emit(s, ActDrop, i, ev.version), i)
    case Sent(delay, twice) =>
      var s1 := Schedule(Update(s, i, sf.(buf := sf.buf + 1)), s.step + delay, i, Carry(ev));
      if twice then Emit(Schedule(s1, s.step + delay, i, Carry(ev)), ActDuplicate, i, ev.version) else s1
  }

  /** What a fate puts on the queue. */
  function FateAdds(cfg: Config, s: State, i: nat, ev: Event, fate: Fate): seq<Delivery> {
    match fate
    case Partitioned =>
      if cfg.resync then [Delivery(s.step + cfg.faults.reconnectAfter, s.seqNo, i, Reconnection)] else []
    case Dark => []
    case Dropped =>
      if cfg.resync then [Delivery(s.step + 1 + cfg.faults.reconnectAfter, s.seqNo, i, Reconnection)] else []
    case BufferFull =>
      if cfg.resync then [Delivery(s.step + 1 + cfg.faults.reconnectAfter, s.seqNo, i, Reconnection)] else []
    case Sent(delay, twice) =>
      [Delivery(s.step + delay, s.seqNo, i, Carry(ev))]
      + if twice then [Delivery(s.step + delay, s.seqNo + 1, i, Carry(ev))] else []
  }

  lemma FateEffect(cfg: Config, s: State, i: nat, ev: Event, fate: Fate)
    requires i < |s.surf|
    ensures var r := ApplyFate(cfg, s, i, ev, fate);
      var added := FateAdds(cfg, s, i, ev, fate);
      && r.queue == s.queue + added
      && r.sched == s.sched + added
      && r.seqNo == s.seqNo + |added|
      && r.step == s.step && r.srvVer == s.srvVer && r.srvData == s.srvData && r.writes == s.writes
      && r.handled == s.handled
      && |r.surf| == |s.surf|
      && (forall j :: 0 <= j < |s.surf| && j != i ==> r.surf[j] == s.surf[j])
  {
  }

  function FanOut(cfg: Config, tape: Tape, s: State, i: nat, ev: Event): State
    requires Normalised(cfg) && i < |s.surf|
  {
    var (fate, pos) := DrawFate(cfg, tape, s.pos, s.surf[i]);
    ApplyFate(cfg, s.(pos := pos), i, ev, fate)
  }

  /** The event for surfaces 0, ..., n-1 in turn. */
  function FanOutTo(cfg: Config, tape: Tape, s: State, ev: Event, n: nat): (r: State)
    requires Normalised(cfg) && n <= |s.surf|
    ensures |r.surf| == |s.surf|
  {
    if n == 0 then s else FanOut(cfg, tape, FanOutTo(cfg, tape, s, ev, n - 1), n - 1, ev)
  }

  /** One more write on the server, announced but not yet fanned out. */
  function BeginWrite(s: State, key: nat): State {
    var v := s.srvVer + 1;
    Emit(s.(srvVer := v, srvData := s.srvData[key := v], writes := s.writes + [Write(key, v)]), ActWrite, -1, v)
  }

  /** The event that carries the latest write. */
  function LatestEvent(cfg: Config, s: State, key: nat): Event {
    if cfg.semantics == Snapshot then SnapshotEvent(s.srvVer, s.srvData) else DeltaEvent(s.srvVer, key, s.srvVer)
  }

  function ApplyWrite(cfg: Config, tape: Tape, s: State): (r: State)
    requires Normalised(cfg) && |s.surf| == cfg.surfaces
    ensures |r.surf| == cfg.surfaces
  {
    var key := tape.number(s.pos) % cfg.keyspace;
    var s1 := BeginWrite(s.(pos := s.pos + 1), key);
    FanOutTo(cfg, tape, s1, LatestEvent(cfg, s1, key), cfg.surfaces)
  }

  // ----------------------------------------------------------------- delivery

  function Deliver(cfg: Config, s: State, i: nat, ev: Event): State
    requires i < |s.surf|
  {
    var sf := s.surf[i].(buf := if s.surf[i].buf > 0 then s.surf[i].buf - 1 else 0);
    var s1 := Update(s, i, sf);
    if !sf.connected then s1 else
    match ev
    case SnapshotEvent(v, snap) =>
      if v > sf.version then
        Emit(Update(s1, i, sf.(data := snap, version := v, gap := false, history := sf.history + [v])),
             ActDeliver, i, v)
      else s1
    case DeltaEvent(v, key, val) =>
      if v <= sf.version then s1
      else if v == sf.version + 1 && !sf.gap then
        Emit(Update(s1, i, sf.(data := sf.data[key := val], version := v, history := sf.history + [v])),
             ActDeliver, i, v)
      else
        Miss(cfg, Emit(Update(s1, i, sf.(gap := true)), ActGap, i, v), i)
  }

  function Handle(cfg: Config, s: State, d: Delivery): State
    requires d.surface < |s.surf|
  {
    match d.payload
    case Reconnection => Reconnect(s, d.surface)
    case Carry(ev) => Deliver(cfg, s, d.surface, ev)
  }

  predicate Due(d: Delivery, step: int) { d.at <= step }

  /** The queue is in the order its items were scheduled. */
  ghost predicate Sorted(q: seq<Delivery>) {
    forall i, j :: 0 <= i < j < |q| ==> q[i].seqNo < q[j].seqNo
  }

  /** Position of the first due item; |q| when there is none. */
  function FirstDue(q: seq<Delivery>, step: int): (r: nat)
    ensures r <= |q|
    ensures r < |q| ==> Due(q[r], step)
    ensures forall j :: 0 <= j < r ==> !Due(q[j], step)
  {
    if |q| == 0 then 0
    else if Due(q[0], step) then 0
    else 1 + FirstDue(q[1..], step)
  }

  /** Every delivery names a surface of the kernel. */
  ghost predicate Addressed(s: State) {
    forall d :: d in s.queue ==> d.surface < |s.surf|
  }

  /** Take item idx off the queue and process it. */
  function Process(cfg: Config, s: State, idx: nat): State
    requires idx < |s.queue| && Addressed(s)
  {
    Handle(cfg, Taken(s, idx), s.queue[idx])
  }

  function Weight(d: Delivery): nat { if d.payload.Carry? then 2 else 1 }

  /** Work left in a queue: an event may still cost a delivery and a reconnect. */
  function Work(q: seq<Delivery>): nat {
    if |q| == 0 then 0 else Work(q[..|q| - 1]) + Weight(q[|q| - 1])
  }

  lemma {:induction false} WorkConcat(a: seq<Delivery>, b: seq<Delivery>)
    ensures Work(a + b) == Work(a) + Work(b)
  {
    if |b| == 0 {
      assert a + b == a;
    } else {
      assert (a + b)[..|a + b| - 1] == a + b[..|b| - 1];
      WorkConcat(a, b[..|b| - 1]);
    }
  }

  lemma {:induction false} WorkTake(q: seq<Delivery>, idx: nat)
    requires idx < |q|
    ensures Work(q[..idx] + q[idx + 1..]) + Weight(q[idx]) == Work(q)
  {
    assert q == q[..idx] + ([q[idx]] + q[idx + 1..]);
    WorkConcat(q[..idx], [q[idx]] + q[idx + 1..]);
    WorkConcat([q[idx]], q[idx + 1..]);
    WorkConcat(q[..idx], q[idx + 1..]);
    assert [q[idx]][..0] == [];
    assert Work([q[idx]]) == Work([q[idx]][..0]) + Weight(q[idx]);
  }

  /** The reconnect that handling d leaves behind: at most one, after a gap. */
  function Aftermath(cfg: Config, s: State, d: Delivery): seq<Delivery>
    requires d.surface < |s.surf|
  {
    var sf := s.surf[d.surface];
    if cfg.resync && sf.connected && d.payload.Carry? && d.payload.ev.DeltaEvent?
       && d.payload.ev.version > sf.version && (d.payload.ev.version != sf.version + 1 || sf.gap)
    then [Delivery(s.step + 1 + cfg.faults.reconnectAfter, s.seqNo, d.surface, Reconnection)]
    else []
  }

  lemma DeliverEffect(cfg: Config, s: State, d: Delivery)
    requires d.surface < |s.surf| && d.payload.Carry?
    ensures var r := Deliver(cfg, s, d.surface, d.payload.ev);
      var added := Aftermath(cfg, s, d);
      && r.queue == s.queue + added
      && r.sched == s.sched + added
      && r.seqNo == s.seqNo + |added|
      && r.step == s.step && r.srvVer == s.srvVer && r.srvData == s.srvData && r.writes == s.writes
      && r.handled == s.handled
      && |r.surf| == |s.surf|
      && (forall j :: 0 <= j < |s.surf| && j != d.surface ==> r.surf[j] == s.surf[j])
  {
  }

  /** What handling d does to everything but the surface it is for. */
  lemma HandleEffect(cfg: Config, s: State, d: Delivery)
    requires d.surface < |s.surf|
    ensures var r := Handle(cfg, s, d);
      var added := Aftermath(cfg, s, d);
      && r.queue == s.queue + added
      && r.sched == s.sched + added
      && r.seqNo == s.seqNo + |added|
      && r.step == s.step && r.srvVer == s.srvVer && r.srvData == s.srvData && r.writes == s.writes
      && r.handled == s.handled
      && |r.surf| == |s.surf|
      && (forall j :: 0 <= j < |s.surf| && j != d.surface ==> r.surf[j] == s.surf[j])
  {
    hide Deliver;
    if d.payload.Carry? {
      DeliverEffect(cfg, s, d);
    }
  }

  function Taken(s: State, idx: nat): State
    requires idx < |s.queue|
  {
    s.(queue := s.queue[..idx] + s.queue[idx + 1..], handled := s.handled + [Handled(s.queue[idx], s.step)])
  }

  /** Processing an item uses up work and keeps the queue addressed. */
  lemma ProcessShrinks(cfg: Config, s: State, idx: nat)
    requires idx < |s.queue| && Addressed(s)
    ensures var r := Process(cfg, s, idx);
      |r.surf| == |s.surf| && Addressed(r) && Work(r.queue) < Work(s.queue)
  {
    hide Handle;
    var d := s.queue[idx];
    HandleEffect(cfg, Taken(s, idx), d);
    WorkTake(s.queue, idx);
    var added := Aftermath(cfg, Taken(s, idx), d);
    if added == [] {
      assert Taken(s, idx).queue + added == Taken(s, idx).queue;
    } else {
      WorkAppend(Taken(s, idx).queue, added[0]);
    }
  }

  lemma WorkAppend(q: seq<Delivery>, d: Delivery)
    ensures Work(q + [d]) == Work(q) + Weight(d)
  {
    assert (q + [d])[..|q + [d]| - 1] == q;
  }

  /** Process everything due at the current step, first due item first. */
  function Drain(cfg: Config, s: State): (r: State)
    requires Addressed(s)
    ensures |r.surf| == |s.surf| && Addressed(r)
    ensures Work(r.queue) < Work(s.queue) || r == s
    decreases Work(s.queue)
  {
    var idx := FirstDue(s.queue, s.step);
    if idx == |s.queue| then s
    else
      ProcessShrinks(cfg, s, idx);
      Drain(cfg, Process(cfg, s, idx))
  }

  // ---------------------------------------------------------------------- run

  /** Nothing in the queue is due yet. */
  ghost predicate NothingDue(s: State) {
    forall d :: d in s.queue ==> !Due(d, s.step)
  }

  lemma {:induction false} DrainLeavesNothingDue(cfg: Config, s: State)
    requires Addressed(s)
    ensures NothingDue(Drain(cfg, s))
    decreases Work(s.queue)
  {
    var idx := FirstDue(s.queue, s.step);
    if idx < |s.queue| {
      ProcessShrinks(cfg, s, idx);
      DrainLeavesNothingDue(cfg, Process(cfg, s, idx));
    }
  }

  function LastAt(q: seq<Delivery>): int
    requires |q| > 0
  {
    if |q| == 1 then q[0].at
    else var m := LastAt(q[1..]); if q[0].at > m then q[0].at else m
  }

  /** How far the clock is from the last due time. */
  function Wait(s: State): nat {
    if |s.queue| > 0 && LastAt(s.queue) > s.step then LastAt(s.queue) - s.step else 0
  }

  lemma {:induction false} LastAtBounds(q: seq<Delivery>, d: Delivery)
    requires d in q
    ensures d.at <= LastAt(q)
  {
    if |q| > 1 && d != q[0] {
      LastAtBounds(q[1..], d);
    }
  }

  /** One step of the closing loop: the clock advances, what is due is processed. */
  function Advance(cfg: Config, s: State): (r: State)
    requires Addressed(s)
    ensures |r.surf| == |s.surf| && Addressed(r)
    ensures Work(r.queue) < Work(s.queue) || r == s.(step := s.step + 1)
  {
    Drain(cfg, s.(step := s.step + 1))
  }

  lemma AdvanceProgress(cfg: Config, s: State)
    requires Addressed(s) && NothingDue(s) && |s.queue| > 0
    ensures NothingDue(Advance(cfg, s))
    ensures var r := Advance(cfg, s);
      Work(r.queue) < Work(s.queue) || (r.queue == s.queue && Wait(r) < Wait(s))
  {
    hide Drain, Work;
    StillWaiting(s);
    DrainLeavesNothingDue(cfg, s.(step := s.step + 1));
  }

  lemma StillWaiting(s: State)
    requires NothingDue(s) && |s.queue| > 0
    ensures LastAt(s.queue) > s.step
  {
    LastAtBounds(s.queue, s.queue[0]);
    assert !Due(s.queue[0], s.step);
  }

  /** The closing loop: run until the network is empty. */
  function Settle(cfg: Config, s: State): (r: State)
    requires Addressed(s) && NothingDue(s)
    ensures |r.surf| == |s.surf| && r.queue == []
    decreases Work(s.queue), Wait(s)
  {
    if |s.queue| == 0 then s
    else
      AdvanceProgress(cfg, s);
      Settle(cfg, Advance(cfg, s))
  }

  function Fresh(cfg: Config): State
    requires Normalised(cfg)
  {
    var sf := Surface(true, 0, map[], 0, false, []);
    State(0, 0, 0, map[], 0, seq(cfg.surfaces, _ => sf), [], [], [], [], [])
  }

  /** Surfaces 0, ..., n-1 have connected and hydrated. */
  function Connect(s: State, n: nat): (r: State)
    requires n <= |s.surf|
    ensures |r.surf| == |s.surf| && r.queue == s.queue
  {
    if n == 0 then s
    else
      var s1 := Connect(s, n - 1);
      Emit(Hydrate(s1, n - 1), ActHydrate, n - 1, s1.srvVer)
  }

  /** One step of the writing loop. */
  function WriteStep(cfg: Config, tape: Tape, s: State): (r: State)
    requires Normalised(cfg) && |s.surf| == cfg.surfaces && Addressed(s)
    ensures |r.surf| == cfg.surfaces && Addressed(r) && NothingDue(r)
  {
    ApplyWriteAddressed(cfg, tape, s.(step := s.step + 1));
    DrainLeavesNothingDue(cfg, ApplyWrite(cfg, tape, s.(step := s.step + 1)));
    Drain(cfg, ApplyWrite(cfg, tape, s.(step := s.step + 1)))
  }

  lemma {:induction false} FanOutToAddressed(cfg: Config, tape: Tape, s: State, ev: Event, n: nat)
    requires Normalised(cfg) && n <= |s.surf| && Addressed(s)
    ensures Addressed(FanOutTo(cfg, tape, s, ev, n))
  {
    if n > 0 {
      var s1 := FanOutTo(cfg, tape, s, ev, n - 1);
      FanOutToAddressed(cfg, tape, s, ev, n - 1);
      var (fate, pos) := DrawFate(cfg, tape, s1.pos, s1.surf[n - 1]);
      FateAddressed(cfg, s1.(pos := pos), n - 1, ev, fate);
      hide DrawFate, ApplyFate, Addressed;
    }
  }

  lemma FateAddressed(cfg: Config, s: State, i: nat, ev: Event, fate: Fate)
    requires i < |s.surf| && Addressed(s)
    ensures Addressed(ApplyFate(cfg, s, i, ev, fate))
  {
    FateEffect(cfg, s, i, ev, fate);
    hide ApplyFate;
  }

  lemma ApplyWriteAddressed(cfg: Config, tape: Tape, s: State)
    requires Normalised(cfg) && |s.surf| == cfg.surfaces && Addressed(s)
    ensures Addressed(ApplyWrite(cfg, tape, s))
  {
    var key := tape.number(s.pos) % cfg.keyspace;
    var s1 := BeginWrite(s.(pos := s.pos + 1), key);
    FanOutToAddressed(cfg, tape, s1, LatestEvent(cfg, s1, key), cfg.surfaces);
  }

  /** The state after n writes, each followed by a drain of what is due. */
  function AfterWrites(cfg: Config, tape: Tape, n: nat): (r: State)
    requires Normalised(cfg)
    ensures |r.surf| == cfg.surfaces && Addressed(r) && NothingDue(r)
  {
    if n == 0 then Connect(Fresh(cfg), cfg.surfaces)
    else WriteStep(cfg, tape, AfterWrites(cfg, tape, n - 1))
  }

  /** The state of a write step between the fan-out and the drain. */
  lemma WriteStepIs(cfg: Config, tape: Tape, s: State)
    requires Normalised(cfg) && |s.surf| == cfg.surfaces && Addressed(s)
    ensures var key := tape.number(s.pos) % cfg.keyspace;
      var s1 := BeginWrite(s.(step := s.step + 1, pos := s.pos + 1), key);
      var r := FanOutTo(cfg, tape, s1, LatestEvent(cfg, s1, key), cfg.surfaces);
      && r == ApplyWrite(cfg, tape, s.(step := s.step + 1))
      && |r.surf| == cfg.surfaces && Addressed(r) && WriteStep(cfg, tape, s) == Drain(cfg, r)
      && s1.pos == s.pos + 1 && s1.step == s.step + 1 && s1.srvVer == s.srvVer + 1
      && s1.surf == s.surf && s1.queue == s.queue && LatestEvent(cfg, s1, key).version == s1.srvVer
  {
    ApplyWriteAddressed(cfg, tape, s.(step := s.step + 1));
    hide FanOutTo, Drain, Addressed;
  }

  lemma OneMoreWrite(cfg: Config, tape: Tape, n: nat)
    requires Normalised(cfg)
    ensures AfterWrites(cfg, tape, n + 1) == WriteStep(cfg, tape, AfterWrites(cfg, tape, n))
  {
  }

  function WriteCount(cfg: Config): nat { if cfg.writes > 0 then cfg.writes else 0 }

  function Settled(cfg: Config, tape: Tape): (r: State)
    requires Normalised(cfg)
    ensures |r.surf| == cfg.surfaces && r.queue == []
  {
    Settle(cfg, AfterWrites(cfg, tape, WriteCount(cfg)))
  }

  predicate Lagging(s: State, i: nat)
    requires i < |s.surf|
  {
    !s.surf[i].connected || s.surf[i].gap || s.surf[i].version != s.srvVer
  }

  /** The quiesce loop over surfaces 0, ..., n-1. */
  function Quiesce(s: State, n: nat): (r: State)
    requires n <= |s.surf|
    ensures |r.surf| == |s.surf|
  {
    if n == 0 then s
    else
      var s1 := Quiesce(s, n - 1);
      if Lagging(s1, n - 1) then Reconnect(s1.(step := s1.step + 1), n - 1) else s1
  }

  /** The state in which Run assembles its result. */
  function Final(cfg: Config, tape: Tape): (r: State)
    requires Normalised(cfg)
    ensures |r.surf| == cfg.surfaces
  {
    var s := Settled(cfg, tape);
    if cfg.resync then Quiesce(s, cfg.surfaces) else s
  }
}
