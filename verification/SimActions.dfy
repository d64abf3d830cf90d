/** What the recorded actions say: each names the surface and the version that it
    is about, and there is one for each thing that happened. */
module SimActions {
  import opened SimModel
  import opened SimSafety
  import opened SimBooks

  // ------------------------------------------------------ an action and its instant

  /** The surface an action names has just had done to it what the action says. */
  ghost predicate Tells(t: Instant) {
    var a := t.action;
    && (a.kind == ActWrite <==> a.surface == -1)
    && (a.kind == ActWrite ==> a.version == t.srvVer >= 1)
    && (a.kind != ActWrite ==>
          && 0 <= a.surface < |t.surf|
          && var sf := t.surf[a.surface];
            match a.kind
            case ActHydrate => Shows(sf, a.version) && a.version == t.srvVer && sf.buf == 0
            case ActReconnect => Shows(sf, a.version) && a.version == t.srvVer && sf.buf == 0
            case ActDeliver => Shows(sf, a.version) && a.version <= t.srvVer
            case ActDrop => sf.connected && a.version == t.srvVer
            case ActDuplicate => sf.connected && a.version == t.srvVer && sf.buf > 0
            case ActPartition => !sf.connected && sf.gap && sf.buf == 0 && a.version == t.srvVer
            case ActGap => sf.connected && sf.gap && sf.version < a.version <= t.srvVer
            case ActWrite => true)
  }

  /** The surface is connected, has no gap, and has just come to version v. */
  predicate Shows(sf: Surface, v: nat) {
    sf.connected && !sf.gap && sf.version == v && |sf.history| > 0 && sf.history[|sf.history| - 1] == v
  }

  ghost predicate AllTell(trace: seq<Instant>) { forall k :: 0 <= k < |trace| ==> Tells(trace[k]) }

  // ------------------------------------------------------------------ one for each

  predicate Applies(a: Action, i: nat) {
    (a.kind == ActHydrate || a.kind == ActDeliver || a.kind == ActReconnect) && a.surface == i
  }

  /** How many instants show surface i coming to a version. */
  function Applied(trace: seq<Instant>, i: nat): nat {
    if |trace| == 0 then 0
    else Applied(trace[..|trace| - 1], i) + if Applies(trace[|trace| - 1].action, i) then 1 else 0
  }

  lemma AppliedAppend(trace: seq<Instant>, t: Instant, i: nat)
    ensures Applied(trace + [t], i) == Applied(trace, i) + if Applies(t.action, i) then 1 else 0
  {
    assert (trace + [t])[..|trace|] == trace;
  }

  /** Each version a surface came to is recorded once, and so is each write. */
  ghost predicate Logged(s: State) {
    && (forall i :: 0 <= i < |s.surf| ==> |s.surf[i].history| == Applied(s.trace, i))
    && Count(s.trace, ActWrite) == s.srvVer
  }

  // ---------------------------------------------------------------- second copies

  function IsEvent(): Delivery -> bool { (d: Delivery) => d.payload.Carry? }

  /** Each event with the surface it is for, once. */
  function Addresses(q: seq<Delivery>): set<(nat, nat)> {
    set d | d in q && d.payload.Carry? :: (d.surface, d.payload.ev.version)
  }

  /** Copies scheduled beyond the first, and what is recorded of them. */
  ghost predicate Doubled(s: State, fanned: nat) {
    && Tally(s.sched, IsEvent()) == |Addresses(s.sched)| + Count(s.trace, ActDuplicate)
    && forall d :: d in s.sched && d.payload.Carry? ==> d.payload.ev.version <= Upto(s.srvVer, fanned, d.surface)
  }

  ghost predicate Acted(s: State, fanned: nat) {
    AllTell(s.trace) && Logged(s) && Doubled(s, fanned)
  }

  lemma AddressesAppend(q: seq<Delivery>, d: Delivery)
    ensures Addresses(q + [d])
         == if d.payload.Carry? then Addresses(q) + {(d.surface, d.payload.ev.version)} else Addresses(q)
  {
    assert forall e :: e in q + [d] <==> e in q || e == d;
    if d.payload.Carry? {
      assert d in q + [d];
    }
  }

  // ------------------------------------------------------------ one step at a time

  lemma EmitTells(s: State, kind: ActionKind, surface: int, version: nat)
    requires AllTell(s.trace) && Tells(Instant(Action(kind, surface, version), s.srvData, s.srvVer, s.surf))
    ensures AllTell(Emit(s, kind, surface, version).trace)
  {
  }

  lemma EmitApplies(s: State, kind: ActionKind, surface: int, version: nat, i: nat)
    ensures Applied(Emit(s, kind, surface, version).trace, i)
         == Applied(s.trace, i) + if Applies(Action(kind, surface, version), i) then 1 else 0
  {
    AppliedAppend(s.trace, Instant(Action(kind, surface, version), s.srvData, s.srvVer, s.surf), i);
  }

  lemma FateTells(cfg: Config, s: State, i: nat, ev: Event, fate: Fate)
    requires i < |s.surf| && Possible(cfg, s.surf[i], fate) && ev.version == s.srvVer && AllTell(s.trace)
    ensures AllTell(ApplyFate(cfg, s, i, ev, fate).trace)
  {
  }

  /** What a fate adds to the trace: one fault, or one duplicate, or nothing. */
  lemma FateActs(cfg: Config, s: State, i: nat, ev: Event, fate: Fate)
    requires i < |s.surf|
    ensures var r := ApplyFate(cfg, s, i, ev, fate);
      && |r.surf| == |s.surf| && r.srvVer == s.srvVer
      && (forall j :: 0 <= j < |s.surf| ==> r.surf[j].history == s.surf[j].history)
      && if fate.Dark? || (fate.Sent? && !fate.twice) then r.trace == s.trace
         else
           && |r.trace| == |s.trace| + 1 && r.trace[..|s.trace|] == s.trace
           && r.trace[|s.trace|].action.kind
              == if fate.Sent? then ActDuplicate else if fate.Partitioned? then ActPartition else ActDrop
  {
  }

  /** One more instant, of a kind that is neither a write nor a new version. */
  lemma OtherLogged(s: State, r: State, t: Instant)
    requires Logged(s) && r.trace == s.trace + [t] && |r.surf| == |s.surf| && r.srvVer == s.srvVer
    requires forall j :: 0 <= j < |s.surf| ==> r.surf[j].history == s.surf[j].history
    requires t.action.kind == ActDrop || t.action.kind == ActPartition || t.action.kind == ActDuplicate
    ensures Logged(r)
    ensures Count(r.trace, ActDuplicate)
         == Count(s.trace, ActDuplicate) + if t.action.kind == ActDuplicate then 1 else 0
  {
    CountAppend(s.trace, t, ActWrite);
    CountAppend(s.trace, t, ActDuplicate);
    hide Count, Applied;
    forall j | 0 <= j < |s.surf| ensures |r.surf[j].history| == Applied(r.trace, j) {
      AppliedAppend(s.trace, t, j);
    }
  }

  lemma FateLogged(cfg: Config, s: State, i: nat, ev: Event, fate: Fate)
    requires i < |s.surf| && Logged(s)
    ensures Logged(ApplyFate(cfg, s, i, ev, fate))
    ensures Count(ApplyFate(cfg, s, i, ev, fate).trace, ActDuplicate)
         == Count(s.trace, ActDuplicate) + if fate.Sent? && fate.twice then 1 else 0
  {
    var r := ApplyFate(cfg, s, i, ev, fate);
    FateActs(cfg, s, i, ev, fate);
    hide ApplyFate, Count, Applied;
    if |r.trace| != |s.trace| {
      var t := r.trace[|s.trace|];
      assert r.trace == s.trace + [t];
      hide Logged;
      OtherLogged(s, r, t);
    }
  }

  lemma SchedOne(q: seq<Delivery>, d: Delivery)
    ensures Tally(q + [d], IsEvent()) == Tally(q, IsEvent()) + if d.payload.Carry? then 1 else 0
    ensures d.payload.Carry? && (d.surface, d.payload.ev.version) !in Addresses(q) ==>
      |Addresses(q + [d])| == |Addresses(q)| + 1
    ensures !d.payload.Carry? || (d.surface, d.payload.ev.version) in Addresses(q) ==>
      Addresses(q + [d]) == Addresses(q)
    ensures d.payload.Carry? ==> (d.surface, d.payload.ev.version) in Addresses(q + [d])
  {
    TallyAppend(q, d, IsEvent());
    AddressesAppend(q, d);
    if d.payload.Carry? && (d.surface, d.payload.ev.version) in Addresses(q) {
      assert Addresses(q) + {(d.surface, d.payload.ev.version)} == Addresses(q);
    }
  }

  /** What a fate adds to the schedule. */
  lemma FateSchedules(cfg: Config, s: State, i: nat, ev: Event, fate: Fate)
    requires i < |s.surf| && (i, ev.version) !in Addresses(s.sched)
    ensures var r := ApplyFate(cfg, s, i, ev, fate);
      && Tally(r.sched, IsEvent()) - Tally(s.sched, IsEvent())
         == |Addresses(r.sched)| - |Addresses(s.sched)| + (if fate.Sent? && fate.twice then 1 else 0)
      && forall d :: d in r.sched && d.payload.Carry? ==> d in s.sched || (d.surface == i && d.payload.ev == ev)
  {
    var added := FateAdds(cfg, s, i, ev, fate);
    FateEffect(cfg, s, i, ev, fate);
    assert forall d :: d in added && d.payload.Carry? ==> d.surface == i && d.payload.ev == ev;
    if fate.Sent? {
      SchedOne(s.sched, added[0]);
      if fate.twice {
        SchedOne(s.sched + [added[0]], added[1]);
        assert s.sched + added == s.sched + [added[0]] + [added[1]];
      }
    } else if |added| == 1 {
      SchedOne(s.sched, added[0]);
      assert added == [added[0]];
    } else {
      assert s.sched + added == s.sched;
    }
    hide ApplyFate, Tally, Addresses;
  }

  lemma FateDoubled(cfg: Config, s: State, i: nat, ev: Event, fate: Fate)
    requires i < |s.surf| && ev.version == s.srvVer && Doubled(s, i) && Logged(s)
    ensures Doubled(ApplyFate(cfg, s, i, ev, fate), i + 1)
  {
    assert (i, s.srvVer) !in Addresses(s.sched);
    FateSchedules(cfg, s, i, ev, fate);
    FateLogged(cfg, s, i, ev, fate);
    FateActs(cfg, s, i, ev, fate);
    hide ApplyFate, Tally, Count, Addresses, Logged;
  }

  lemma FateActed(cfg: Config, s: State, i: nat, ev: Event, fate: Fate)
    requires i < |s.surf| && Possible(cfg, s.surf[i], fate) && ev.version == s.srvVer && Acted(s, i)
    ensures Acted(ApplyFate(cfg, s, i, ev, fate), i + 1)
  {
    hide AllTell, Logged, Doubled, ApplyFate, Possible;
    FateTells(cfg, s, i, ev, fate);
    FateLogged(cfg, s, i, ev, fate);
    FateDoubled(cfg, s, i, ev, fate);
  }

  lemma BeginActed(s: State, key: nat)
    requires Acted(s, |s.surf|)
    ensures Acted(BeginWrite(s, key), 0)
  {
    var r := BeginWrite(s, key);
    var t := r.trace[|s.trace|];
    assert r.trace == s.trace + [t];
    CountAppend(s.trace, t, ActWrite);
    CountAppend(s.trace, t, ActDuplicate);
    hide Count, Applied, Tally, Addresses;
    forall j | 0 <= j < |s.surf| ensures |r.surf[j].history| == Applied(r.trace, j) {
      AppliedAppend(s.trace, t, j);
    }
  }

  // --------------------------------------------------------------------- delivery

  /** What handling an item adds to the trace and to the histories. */
  lemma HandleActs(cfg: Config, s: State, d: Delivery)
    requires d.surface < |s.surf|
    ensures var r := Handle(cfg, s, d);
      && |r.surf| == |s.surf| && r.srvVer == s.srvVer
      && (forall j :: 0 <= j < |s.surf| && j != d.surface ==> r.surf[j] == s.surf[j])
      && if |r.trace| == |s.trace| then r.trace == s.trace && r.surf[d.surface].history == s.surf[d.surface].history
         else
           && |r.trace| == |s.trace| + 1 && r.trace[..|s.trace|] == s.trace
           && var a := r.trace[|s.trace|].action;
             && a.surface == d.surface && (a.kind == ActDeliver || a.kind == ActGap || a.kind == ActReconnect)
             && |r.surf[d.surface].history| == |s.surf[d.surface].history| + (if a.kind == ActGap then 0 else 1)
  {
    if d.payload.Carry? {
      DeliverActs(cfg, s, d);
      hide Deliver;
    }
  }

  lemma DeliverActs(cfg: Config, s: State, d: Delivery)
    requires d.surface < |s.surf| && d.payload.Carry?
    ensures var r := Deliver(cfg, s, d.surface, d.payload.ev);
      && |r.surf| == |s.surf| && r.srvVer == s.srvVer
      && (forall j :: 0 <= j < |s.surf| && j != d.surface ==> r.surf[j] == s.surf[j])
      && if |r.trace| == |s.trace| then r.trace == s.trace && r.surf[d.surface].history == s.surf[d.surface].history
         else
           && |r.trace| == |s.trace| + 1 && r.trace[..|s.trace|] == s.trace
           && var a := r.trace[|s.trace|].action;
             && a.surface == d.surface && (a.kind == ActDeliver || a.kind == ActGap || a.kind == ActReconnect)
             && |r.surf[d.surface].history| == |s.surf[d.surface].history| + (if a.kind == ActGap then 0 else 1)
  {
  }

  lemma HandleTells(cfg: Config, s: State, d: Delivery)
    requires d.surface < |s.surf| && AllTell(s.trace)
    requires d.payload.Carry? ==> d.payload.ev.version <= s.srvVer
    ensures AllTell(Handle(cfg, s, d).trace)
  {
    if d.payload.Carry? {
      DeliverTells(cfg, s, d.surface, d.payload.ev);
      hide Deliver, Tells;
    }
  }

  lemma DeliverTells(cfg: Config, s: State, i: nat, ev: Event)
    requires i < |s.surf| && AllTell(s.trace) && ev.version <= s.srvVer
    ensures AllTell(Deliver(cfg, s, i, ev).trace)
  {
  }

  lemma HandleLogged(cfg: Config, s: State, d: Delivery)
    requires d.surface < |s.surf| && Logged(s)
    ensures Logged(Handle(cfg, s, d))
    ensures Count(Handle(cfg, s, d).trace, ActDuplicate) == Count(s.trace, ActDuplicate)
  {
    var r := Handle(cfg, s, d);
    HandleActs(cfg, s, d);
    hide Handle, Count, Applied;
    if |r.trace| != |s.trace| {
      var t := r.trace[|s.trace|];
      assert r.trace == s.trace + [t];
      CountAppend(s.trace, t, ActWrite);
      CountAppend(s.trace, t, ActDuplicate);
      forall j | 0 <= j < |s.surf| ensures |r.surf[j].history| == Applied(r.trace, j) {
        AppliedAppend(s.trace, t, j);
      }
    }
  }

  lemma HandleDoubled(cfg: Config, s: State, d: Delivery)
    requires d.surface < |s.surf| && Doubled(s, |s.surf|) && Logged(s)
    ensures Doubled(Handle(cfg, s, d), |s.surf|)
  {
    HandleSchedules(cfg, s, d);
    HandleLogged(cfg, s, d);
    hide Handle, Count, Tally, Addresses, Logged;
  }

  /** Handling an item schedules no event. */
  lemma HandleSchedules(cfg: Config, s: State, d: Delivery)
    requires d.surface < |s.surf|
    ensures var r := Handle(cfg, s, d);
      && |r.surf| == |s.surf| && r.srvVer == s.srvVer
      && Tally(r.sched, IsEvent()) == Tally(s.sched, IsEvent()) && Addresses(r.sched) == Addresses(s.sched)
      && forall e :: e in r.sched && e.payload.Carry? ==> e in s.sched
  {
    HandleEffect(cfg, s, d);
    var added := Aftermath(cfg, s, d);
    assert |added| <= 1 && (|added| == 1 ==> added[0].payload.Reconnection?);
    hide Handle, Aftermath, Tally, Addresses;
    if |added| == 1 {
      SchedOne(s.sched, added[0]);
      assert added == [added[0]];
    } else {
      assert s.sched + added == s.sched;
    }
  }

  lemma ProcessActed(cfg: Config, s: State, idx: nat)
    requires Safe(cfg, s, |s.surf|) && idx < |s.queue| && Addressed(s) && Acted(s, |s.surf|)
    ensures Acted(Process(cfg, s, idx), |s.surf|)
  {
    var d := s.queue[idx];
    var s1 := Taken(s, idx);
    assert Faithful(cfg, s.writes, s.seqNo, d);
    assert Doubled(s1, |s1.surf|) && Logged(s1) && AllTell(s1.trace);
    hide Handle, Count, Applied, AllTell, Logged, Doubled, Safe;
    HandleTells(cfg, s1, d);
    HandleLogged(cfg, s1, d);
    HandleDoubled(cfg, s1, d);
    HandleEffect(cfg, s1, d);
  }

  /** A surface that connects at the start. */
  lemma HydrateActed(s: State, i: nat)
    requires i < |s.surf| && Acted(s, |s.surf|)
    ensures Acted(Emit(Hydrate(s, i), ActHydrate, i, s.srvVer), |s.surf|)
  {
    var r := Emit(Hydrate(s, i), ActHydrate, i, s.srvVer);
    var t := r.trace[|s.trace|];
    assert r.trace == s.trace + [t];
    CountAppend(s.trace, t, ActWrite);
    CountAppend(s.trace, t, ActDuplicate);
    hide Count, Applied, Tally, Addresses;
    forall j | 0 <= j < |s.surf| ensures |r.surf[j].history| == Applied(r.trace, j) {
      AppliedAppend(s.trace, t, j);
    }
  }
}
