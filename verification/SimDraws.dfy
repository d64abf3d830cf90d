/** What the draws decide: each fault strikes on its own coin and on no other, and
    what a fault leaves behind is due when the configuration says. */
module SimDraws {
  import opened SimModel
  import opened SimSafety
  import opened SimRun

  /** Draws of a real generator: fractions from 0 up to but not including 1. */
  ghost predicate Fractions(tape: Tape) { forall n :: 0.0 <= tape.coin(n) < 1.0 }

  /** Some coin taken from lo up to but not including hi is below the rate. */
  ghost predicate Hits(tape: Tape, lo: nat, hi: nat, rate: real) {
    exists p :: lo <= p < hi && tape.coin(p) < rate
  }

  predicate Hit(tape: Tape, p: nat, rate: real) { rate > 0.0 && tape.coin(p) < rate }

  /** A coin is only taken for a rate that is positive. */
  function Coins(rate: real): nat { if rate > 0.0 then 1 else 0 }

  // Where the coins of one event lie, for a surface that gets as far.

  function DropAt(cfg: Config, pos: nat): nat { pos + Coins(cfg.faults.partitionRate) }

  function DelayAt(cfg: Config, pos: nat): nat { DropAt(cfg, pos) + Coins(cfg.faults.dropRate) }

  function DoubleAt(cfg: Config, pos: nat, late: bool): nat {
    DelayAt(cfg, pos) + Coins(cfg.faults.delayRate) + if late then 1 else 0
  }

  /** Each fault strikes exactly when its own coin falls below its own rate. */
  lemma EachFaultHasItsCoin(cfg: Config, tape: Tape, pos: nat, sf: Surface)
    requires Normalised(cfg) && sf.connected
    ensures var (fate, p) := DrawFate(cfg, tape, pos, sf); var f := cfg.faults;
      && (fate.Partitioned? <==> Hit(tape, pos, f.partitionRate))
      && (fate.Dropped? <==> !fate.Partitioned? && Hit(tape, DropAt(cfg, pos), f.dropRate))
      && (fate.BufferFull? <==> !fate.Partitioned? && !fate.Dropped? && sf.buf >= cfg.buffer)
      && (fate.Sent? <==> !fate.Partitioned? && !fate.Dropped? && sf.buf < cfg.buffer)
      && (fate.Sent? ==>
            && (fate.delay > 0 <==> Hit(tape, DelayAt(cfg, pos), f.delayRate))
            && (fate.delay > 0 ==> fate.delay == 1 + tape.number(DelayAt(cfg, pos) + 1) % f.delayMax)
            && (fate.twice <==> Hit(tape, DoubleAt(cfg, pos, fate.delay > 0), f.duplicateRate))
            && p == DoubleAt(cfg, pos, fate.delay > 0) + Coins(f.duplicateRate))
  {
  }

  /** No fault without a coin below its rate among those taken for the event; and
      if none taken is below any rate, the event goes out at once and alone,
      unless the surface is dark or has no room. */
  lemma NoFaultWithoutAHit(cfg: Config, tape: Tape, pos: nat, sf: Surface)
    requires Normalised(cfg)
    ensures var (fate, p) := DrawFate(cfg, tape, pos, sf); var f := cfg.faults;
      && pos <= p
      && (fate.Partitioned? ==> Hits(tape, pos, p, f.partitionRate))
      && (fate.Dropped? ==> Hits(tape, pos, p, f.dropRate))
      && (fate.Sent? && fate.delay > 0 ==> Hits(tape, pos, p, f.delayRate))
      && (fate.Sent? && fate.twice ==> Hits(tape, pos, p, f.duplicateRate))
      && (!Hits(tape, pos, p, f.partitionRate) && !Hits(tape, pos, p, f.dropRate)
          && !Hits(tape, pos, p, f.delayRate) && !Hits(tape, pos, p, f.duplicateRate) ==>
            fate == Dark || fate == BufferFull || fate == Sent(0, false))
  {
    if sf.connected {
      EachFaultHasItsCoin(cfg, tape, pos, sf);
      var (fate, p) := DrawFate(cfg, tape, pos, sf);
      if fate.Sent? && fate.twice {
        assert tape.coin(DoubleAt(cfg, pos, fate.delay > 0)) < cfg.faults.duplicateRate;
      }
      if fate.Sent? && fate.delay > 0 {
        assert tape.coin(DelayAt(cfg, pos)) < cfg.faults.delayRate;
      }
      if fate.Dropped? {
        assert tape.coin(DropAt(cfg, pos)) < cfg.faults.dropRate;
      }
    }
  }

  // ---------------------------------------------------- every possible fate is drawn

  function Larger(a: real, b: real): real { if a >= b then a else b }

  /** A coin that no rate is above. */
  function MissingCoin(f: Faults): real {
    Larger(0.0, Larger(Larger(f.partitionRate, f.dropRate), Larger(f.delayRate, f.duplicateRate)))
  }

  /** Draws that hit at the given positions and miss elsewhere, with one number. */
  function Aimed(f: Faults, hits: set<nat>, number: nat): Tape {
    Tape((p: nat) => if p in hits then 0.0 else MissingCoin(f), (p: nat) => number)
  }

  /** The coins that must hit for a fate. */
  function HitsFor(cfg: Config, pos: nat, fate: Fate): set<nat> {
    match fate
    case Partitioned => {pos}
    case Dropped => {DropAt(cfg, pos)}
    case Sent(delay, twice) =>
      (if delay > 0 then {DelayAt(cfg, pos)} else {}) + if twice then {DoubleAt(cfg, pos, delay > 0)} else {}
    case _ => {}
  }

  predicate BelowOne(f: Faults) {
    f.partitionRate < 1.0 && f.dropRate < 1.0 && f.delayRate < 1.0 && f.duplicateRate < 1.0
  }

  lemma AimedHits(f: Faults, hits: set<nat>, number: nat, p: nat)
    requires BelowOne(f)
    ensures var tape := Aimed(f, hits, number);
      && tape.number(p) == number
      && (Hit(tape, p, f.partitionRate) <==> p in hits && f.partitionRate > 0.0)
      && (Hit(tape, p, f.dropRate) <==> p in hits && f.dropRate > 0.0)
      && (Hit(tape, p, f.delayRate) <==> p in hits && f.delayRate > 0.0)
      && (Hit(tape, p, f.duplicateRate) <==> p in hits && f.duplicateRate > 0.0)
  {
  }

  lemma AimedIsFair(f: Faults, hits: set<nat>, number: nat)
    requires BelowOne(f)
    ensures Fractions(Aimed(f, hits, number))
  {
  }

  /** Four coins and a number settle the fate of an event. */
  lemma CoinsSettle(cfg: Config, tape: Tape, pos: nat, sf: Surface, fate: Fate)
    requires Normalised(cfg) && sf.connected && Possible(cfg, sf, fate)
    requires Hit(tape, pos, cfg.faults.partitionRate) <==> fate.Partitioned?
    requires !fate.Partitioned? ==> (Hit(tape, DropAt(cfg, pos), cfg.faults.dropRate) <==> fate.Dropped?)
    requires fate.Sent? ==> (Hit(tape, DelayAt(cfg, pos), cfg.faults.delayRate) <==> fate.delay > 0)
    requires fate.Sent? && fate.delay > 0 ==> tape.number(DelayAt(cfg, pos) + 1) == fate.delay - 1
    requires fate.Sent? ==> (Hit(tape, DoubleAt(cfg, pos, fate.delay > 0), cfg.faults.duplicateRate) <==> fate.twice)
    ensures DrawFate(cfg, tape, pos, sf).0 == fate
  {
    EachFaultHasItsCoin(cfg, tape, pos, sf);
    hide DrawFate, Hit, DropAt, DelayAt, DoubleAt, Coins;
    if fate.Sent? && fate.delay > 0 {
      SmallRemainder(fate.delay - 1, cfg.faults.delayMax);
    }
  }

  lemma SmallRemainder(number: nat, bound: int)
    requires number < bound
    ensures number % bound == number
  {
  }

  /** Draws that lead to a possible fate. */
  lemma AimedAtFate(cfg: Config, pos: nat, sf: Surface, fate: Fate) returns (tape: Tape)
    requires Normalised(cfg) && BelowOne(cfg.faults) && Possible(cfg, sf, fate)
    ensures Fractions(tape) && DrawFate(cfg, tape, pos, sf).0 == fate
  {
    var number := if fate.Sent? && fate.delay > 0 then fate.delay - 1 else 0;
    var hits := HitsFor(cfg, pos, fate);
    tape := Aimed(cfg.faults, hits, number);
    AimedIsFair(cfg.faults, hits, number);
    if sf.connected {
      hide DrawFate, Fractions, Hit, Aimed;
      AimedHits(cfg.faults, hits, number, pos);
      AimedHits(cfg.faults, hits, number, DropAt(cfg, pos));
      AimedHits(cfg.faults, hits, number, DelayAt(cfg, pos));
      AimedHits(cfg.faults, hits, number, DelayAt(cfg, pos) + 1);
      AimedHits(cfg.faults, hits, number, DoubleAt(cfg, pos, fate.Sent? && fate.delay > 0));
      CoinsSettle(cfg, tape, pos, sf, fate);
    }
  }

  /** With no rate as large as 1, a real generator can draw exactly the fates that
      are possible. */
  lemma PossibleIffDrawn(cfg: Config, pos: nat, sf: Surface, fate: Fate)
    requires Normalised(cfg) && BelowOne(cfg.faults)
    ensures Possible(cfg, sf, fate) <==> exists tape :: Fractions(tape) && DrawFate(cfg, tape, pos, sf).0 == fate
  {
    if Possible(cfg, sf, fate) {
      var tape := AimedAtFate(cfg, pos, sf, fate);
    }
    hide Possible, DrawFate, Fractions;
  }

  // ------------------------------------------------------------ when recovery is due

  /** A partitioned surface stays dark for the configured number of steps; a missed
      event is made up for one step later than that; neither without resync. */
  lemma RecoveryIsDue(cfg: Config, s: State, i: nat, ev: Event, fate: Fate)
    requires i < |s.surf|
    ensures var r, f := ApplyFate(cfg, s, i, ev, fate), cfg.faults;
      && |r.queue| >= |s.queue| && r.queue[..|s.queue|] == s.queue
      && var added := r.queue[|s.queue|..];
      && (!cfg.resync && !fate.Sent? ==> added == [])
      && (fate.Dark? ==> added == [])
      && (cfg.resync && fate.Partitioned? ==>
            added == [Delivery(s.step + f.reconnectAfter, s.seqNo, i, Reconnection)])
      && (cfg.resync && (fate.Dropped? || fate.BufferFull?) ==>
            added == [Delivery(s.step + 1 + f.reconnectAfter, s.seqNo, i, Reconnection)])
      && (fate.Sent? ==>
            && |added| == (if fate.twice then 2 else 1)
            && added[0] == Delivery(s.step + fate.delay, s.seqNo, i, Carry(ev))
            && (fate.twice ==> added[1] == Delivery(s.step + fate.delay, s.seqNo + 1, i, Carry(ev))))
  {
    FateEffect(cfg, s, i, ev, fate);
  }

  /** So is a delta that opens a gap. */
  lemma GapRecoveryIsDue(cfg: Config, s: State, i: nat, ev: Event)
    requires i < |s.surf| && s.surf[i].connected && ev.DeltaEvent? && ev.version > s.surf[i].version
    requires ev.version != s.surf[i].version + 1 || s.surf[i].gap
    ensures var r := Deliver(cfg, s, i, ev);
      r.surf[i].gap && r.queue == s.queue
        + if cfg.resync then [Delivery(s.step + 1 + cfg.faults.reconnectAfter, s.seqNo, i, Reconnection)] else []
  {
  }

  // --------------------------------------------------- what happens to a surface

  /** An event on its way takes one place of its surface's buffer, however many
      copies are made of it; losing the connection frees them all.  An event lost
      in any way but in the dark leaves a gap.  No event shows before it arrives. */
  lemma FateOnSurface(cfg: Config, s: State, i: nat, ev: Event, fate: Fate)
    requires i < |s.surf|
    ensures var sf, r := s.surf[i], ApplyFate(cfg, s, i, ev, fate).surf[i];
      && r.data == sf.data && r.version == sf.version && r.history == sf.history
      && (r.connected <==> sf.connected && !fate.Partitioned?)
      && (r.gap <==> sf.gap || fate.Partitioned? || fate.Dropped? || fate.BufferFull?)
      && r.buf == if fate.Sent? then sf.buf + 1 else if fate.Partitioned? then 0 else sf.buf
  {
  }

  predicate OutOfTurn(sf: Surface, ev: Event) {
    ev.DeltaEvent? && ev.version > sf.version && (ev.version != sf.version + 1 || sf.gap)
  }

  /** A copy that arrives frees one place.  It shows if the surface is connected
      and it is newer, a delta only in its turn; out of turn it leaves a gap, which
      only a newer snapshot fills. */
  lemma ArrivalOnSurface(cfg: Config, s: State, i: nat, ev: Event)
    requires i < |s.surf|
    ensures var sf, r := s.surf[i], Deliver(cfg, s, i, ev).surf[i];
      var shows := sf.connected && ev.version > sf.version && !OutOfTurn(sf, ev);
      && r.connected == sf.connected
      && r.buf == (if sf.buf > 0 then sf.buf - 1 else 0)
      && r.version == (if shows then ev.version else sf.version)
      && r.history == (if shows then sf.history + [ev.version] else sf.history)
      && r.data == (if !shows then sf.data else if ev.SnapshotEvent? then ev.snapshot else sf.data[ev.key := ev.val])
      && (r.gap <==> if sf.connected && OutOfTurn(sf, ev) then true else if shows then false else sf.gap)
  {
  }

  // ------------------------------------------------------------- what is written

  /** Write n carries value n, under one of the configured keys. */
  ghost predicate Numbered(cfg: Config, writes: seq<Write>) {
    forall n :: 0 <= n < |writes| ==> writes[n].val == n + 1 && writes[n].key < cfg.keyspace
  }

  lemma {:induction false} FanOutToWrites(cfg: Config, tape: Tape, s: State, ev: Event, n: nat)
    requires Normalised(cfg) && n <= |s.surf|
    ensures FanOutTo(cfg, tape, s, ev, n).writes == s.writes
  {
    hide FanOut;
    if n > 0 {
      FanOutToWrites(cfg, tape, s, ev, n - 1);
      FanOutFrame(cfg, tape, FanOutTo(cfg, tape, s, ev, n - 1), n - 1, ev);
    }
  }

  lemma {:induction false} DrainWrites(cfg: Config, s: State)
    requires Addressed(s)
    ensures Drain(cfg, s).writes == s.writes
    decreases Work(s.queue)
  {
    hide Process, Addressed;
    var idx := FirstDue(s.queue, s.step);
    if idx < |s.queue| {
      ProcessShrinks(cfg, s, idx);
      ProcessFrame(cfg, s, idx);
      DrainWrites(cfg, Process(cfg, s, idx));
    }
  }

  /** A write step adds one write: the next value, under the key drawn for it. */
  lemma WriteStepWrites(cfg: Config, tape: Tape, s: State)
    requires Normalised(cfg) && |s.surf| == cfg.surfaces && Addressed(s)
    ensures WriteStep(cfg, tape, s).writes == s.writes + [Write(tape.number(s.pos) % cfg.keyspace, s.srvVer + 1)]
  {
    WriteStepIs(cfg, tape, s);
    var key := tape.number(s.pos) % cfg.keyspace;
    var b := BeginWrite(s.(step := s.step + 1, pos := s.pos + 1), key);
    assert b.writes == s.writes + [Write(key, s.srvVer + 1)];
    hide FanOutTo, Drain, Addressed, WriteStep, BeginWrite, LatestEvent, ApplyWrite;
    FanOutToWrites(cfg, tape, b, LatestEvent(cfg, b, key), cfg.surfaces);
    DrainWrites(cfg, FanOutTo(cfg, tape, b, LatestEvent(cfg, b, key), cfg.surfaces));
  }

  lemma WritesCount(cfg: Config, tape: Tape, n: nat)
    requires Normalised(cfg)
    ensures var s := AfterWrites(cfg, tape, n); |s.writes| == s.srvVer == n
  {
    hide AfterWrites, SurfacesSound, QueueSound, InstantsSound, TraceOrdered;
    AfterWritesInv(cfg, tape, n);
  }

  lemma {:induction false} WritesAreNumbered(cfg: Config, tape: Tape, n: nat)
    requires Normalised(cfg)
    ensures Numbered(cfg, AfterWrites(cfg, tape, n).writes)
  {
    hide WriteStep, AfterWrites;
    WritesCount(cfg, tape, n);
    if n > 0 {
      WritesAreNumbered(cfg, tape, n - 1);
      OneMoreWrite(cfg, tape, n - 1);
      WritesCount(cfg, tape, n - 1);
      WriteStepWrites(cfg, tape, AfterWrites(cfg, tape, n - 1));
    }
  }

  /** Every key of the configuration can be drawn for every write. */
  lemma {:induction false} EachKeyIsDrawn(cfg: Config, key: nat, n: nat)
    requires Normalised(cfg) && key < cfg.keyspace
    ensures var tape := Tape((p: nat) => 0.0, (p: nat) => key);
      var s := AfterWrites(cfg, tape, n);
      |s.writes| == n && forall m :: 0 <= m < n ==> s.writes[m].key == key
  {
    var tape := Tape((p: nat) => 0.0, (p: nat) => key);
    hide WriteStep, AfterWrites;
    WritesCount(cfg, tape, n);
    if n > 0 {
      EachKeyIsDrawn(cfg, key, n - 1);
      OneMoreWrite(cfg, tape, n - 1);
      WriteStepWrites(cfg, tape, AfterWrites(cfg, tape, n - 1));
    }
  }

  /** Of a whole run: the server's log is the writes 1, 2, ... */
  lemma LogIsNumbered(cfg: Config, tape: Tape)
    requires Normalised(cfg)
    ensures Settled(cfg, tape).writes == AfterWrites(cfg, tape, WriteCount(cfg)).writes
    ensures Numbered(cfg, Settled(cfg, tape).writes)
  {
    hide AfterWrites, Settle, Stable;
    AfterWritesInv(cfg, tape, WriteCount(cfg));
    SettleInv(cfg, AfterWrites(cfg, tape, WriteCount(cfg)));
    WritesAreNumbered(cfg, tape, WriteCount(cfg));
  }
}
