/** The server-owned stopwatch: its clock, and the protocol by which concurrent
    Start calls wake a tick loop that parks itself when there is nothing to do. */
module Stopwatch {
  import opened Options

  // ------------------------------------------------------------------- the clock

  datatype Act = Start | Stop | Reset | Lap

  /** One control action and the time at which it took the lock. */
  datatype Mark = Mark(act: Act, at: int)

  datatype LapView = LapView(number: int, elapsedMs: int)

  datatype Snapshot = Snapshot(elapsedMs: int, running: bool, laps: seq<LapView>)

  /** Nanoseconds in whole milliseconds, truncated toward zero. */
  function Milliseconds(d: int): (ms: int)
    ensures d >= 0 ==> 0 <= d - 1000000 * ms < 1000000
    ensures d <= 0 ==> -1000000 < d - 1000000 * ms <= 0
  {
    if d >= 0 then d / 1000000 else -((-d) / 1000000)
  }

  predicate IsRunning(h: seq<Mark>) {
    if |h| == 0 then false
    else match h[|h| - 1].act
      case Start => true
      case Stop => false
      case Reset => false
      case Lap => IsRunning(h[..|h| - 1])
  }

  /** Time spent running, up to now, since the last reset. */
  function RunningTime(h: seq<Mark>, now: int): int {
    if |h| == 0 || h[|h| - 1].act == Reset then 0
    else
      var last := h[|h| - 1];
      RunningTime(h[..|h| - 1], last.at) + if IsRunning(h) then now - last.at else 0
  }

  /** The times recorded by Lap since the last reset, newest first. */
  function Splits(h: seq<Mark>): seq<int> {
    if |h| == 0 || h[|h| - 1].act == Reset then []
    else
      var before, last := h[..|h| - 1], h[|h| - 1];
      if last.act == Lap && RunningTime(before, last.at) > 0
      then [RunningTime(before, last.at)] + Splits(before)
      else Splits(before)
  }

  /** Between two readings with no action in between, the time moves exactly as
      the clock does while running, and not at all while stopped. */
  lemma TimeIsExact(h: seq<Mark>, t: int, now: int)
    ensures RunningTime(h, now) - RunningTime(h, t) == if IsRunning(h) then now - t else 0
  {
  }

  /** No action but Reset moves the time at the moment it is taken; Start and Stop
      decide whether it runs on, and only Lap lists it. */
  lemma ActionsAreExact(h: seq<Mark>, act: Act, at: int)
    ensures var next, time := h + [Mark(act, at)], RunningTime(h, at);
      && RunningTime(next, at) == (if act == Reset then 0 else time)
      && (IsRunning(next) <==> act == Start || (act == Lap && IsRunning(h)))
      && Splits(next) == (if act == Reset then [] else if act == Lap && time > 0 then [time] + Splits(h) else Splits(h))
    ensures RunningTime([], at) == 0 && !IsRunning([]) && Splits([]) == []
  {
    assert (h + [Mark(act, at)])[..|h|] == h;
    TimeIsExact(h, if |h| == 0 then 0 else h[|h| - 1].at, at);
  }

  ghost predicate InOrder(h: seq<Mark>, now: int) {
    && (forall i, j :: 0 <= i < j < |h| ==> h[i].at <= h[j].at)
    && (forall i :: 0 <= i < |h| ==> h[i].at <= now)
  }

  /** On a clock that does not go back, running time does not either. */
  lemma {:induction false} TimeAccrues(h: seq<Mark>, t: int, now: int)
    requires InOrder(h, t) && t <= now
    ensures 0 <= RunningTime(h, t) <= RunningTime(h, now)
    decreases |h|
  {
    if |h| > 0 && h[|h| - 1].act != Reset {
      var before, last := h[..|h| - 1], h[|h| - 1];
      TimeAccrues(before, last.at, last.at);
    }
  }

  /** Splits are listed from the largest to the smallest, none above the time on
      the clock and none zero. */
  lemma {:induction false} SplitsDescend(h: seq<Mark>, now: int)
    requires InOrder(h, now)
    ensures forall i :: 0 <= i < |Splits(h)| ==> 0 < Splits(h)[i] <= RunningTime(h, now)
    ensures forall i, j :: 0 <= i < j < |Splits(h)| ==> Splits(h)[i] >= Splits(h)[j]
    decreases |h|
  {
    if |h| > 0 && h[|h| - 1].act != Reset {
      var before, last := h[..|h| - 1], h[|h| - 1];
      SplitsDescend(before, last.at);
      TimeAccrues(before, last.at, last.at);
    }
  }

  class Clock {
    var elapsed: int
    var startedAt: int
    var running: bool
    var laps: seq<int>
    ghost var marks: seq<Mark>

    /** The fields stand for the history of actions. */
    ghost predicate Valid()
      reads this
    {
      && running == IsRunning(marks)
      && (forall now :: RunningTime(marks, now) == Reading(now))
      && laps == Splits(marks)
    }

    function Reading(now: int): int
      reads this
    {
      if running then elapsed + (now - startedAt) else elapsed
    }

    constructor ()
      ensures Valid() && marks == []
    {
      elapsed, startedAt, running, laps, marks := 0, 0, false, [], [];
    }

    method Snap(now: int) returns (s: Snapshot)
      requires Valid()
      ensures s.elapsedMs == Milliseconds(RunningTime(marks, now)) && s.running == IsRunning(marks)
      ensures |s.laps| == |Splits(marks)|
      ensures forall i :: 0 <= i < |s.laps| ==> s.laps[i] == LapView(|s.laps| - i, Milliseconds(Splits(marks)[i]))
    {
      var shown: seq<LapView> := [];
      for i := 0 to |laps|
        invariant |shown| == i
        invariant forall j :: 0 <= j < i ==> shown[j] == LapView(|laps| - j, Milliseconds(laps[j]))
      {
        shown := shown + [LapView(|laps| - i, Milliseconds(laps[i]))];
      }
      s := Snapshot(Milliseconds(Reading(now)), running, shown);
    }

    ghost method Log(act: Act, now: int)
      modifies this`marks
      ensures marks == old(marks) + [Mark(act, now)]
      ensures marks[..|marks| - 1] == old(marks)
    {
      marks := marks + [Mark(act, now)];
    }

    method Start(now: int)
      requires Valid()
      modifies this
      ensures Valid() && marks == old(marks) + [Mark(Act.Start, now)]
    {
      if !running {
        running := true;
        startedAt := now;
      }
      Log(Act.Start, now);
    }

    method Stop(now: int)
      requires Valid()
      modifies this
      ensures Valid() && marks == old(marks) + [Mark(Act.Stop, now)]
    {
      assert Reading(now) == RunningTime(marks, now);
      if running {
        elapsed := elapsed + (now - startedAt);
        running := false;
      }
      Log(Act.Stop, now);
    }

    method Reset(now: int)
      requires Valid()
      modifies this
      ensures Valid() && marks == old(marks) + [Mark(Act.Reset, now)]
    {
      elapsed, startedAt, running, laps := 0, now, false, [];
      Log(Act.Reset, now);
    }

    method Lap(now: int)
      requires Valid()
      modifies this
      ensures Valid() && marks == old(marks) + [Mark(Act.Lap, now)]
    {
      var reading := Reading(now);
      if reading > 0 {
        laps := [reading] + laps;
      }
      assert reading == RunningTime(marks, now);
      Log(Act.Lap, now);
    }
  }

  // ----------------------------------------------------------- the wake protocol

  /** Where the tick loop is: ticking; told to stop by a tick but not yet parked;
      parked on the wake channel. */
  datatype Loop = Ticking | Halting | Parked

  /** What the goroutines share.  token is the wake channel, which holds one
      poke; posting counts Start calls that have released the lock and have yet
      to poke. */
  datatype Shared = Shared(running: bool, token: bool, loop: Loop, posting: nat)

  datatype Step =
    | StartLocks      // Start sets running under the lock
    | StartPokes      // a Start sends on wake, or finds a poke already there
    | StopLocks       // Stop or Reset clears running under the lock
    | TickRuns        // a tick sees running and publishes
    | TickHalts       // a tick sees that the stopwatch has stopped
    | Parks           // the loop stops its ticker
    | SkipsPoke       // the loop receives a poke while ticking already
    | Wakes           // the parked loop receives a poke

  predicate Enabled(s: Shared, step: Step) {
    match step
    case StartLocks => true
    case StartPokes => s.posting > 0
    case StopLocks => true
    case TickRuns => s.loop == Ticking && s.running
    case TickHalts => s.loop == Ticking && !s.running
    case Parks => s.loop == Halting
    case SkipsPoke => s.loop == Ticking && s.token
    case Wakes => s.loop == Parked && s.token
  }

  function Take(s: Shared, step: Step): Shared
    requires Enabled(s, step)
  {
    match step
    case StartLocks => s.(running := true, posting := s.posting + 1)
    case StartPokes => s.(token := true, posting := s.posting - 1)
    case StopLocks => s.(running := false)
    case TickRuns => s
    case TickHalts => s.(loop := Halting)
    case Parks => s.(loop := Parked)
    case SkipsPoke => s.(token := false)
    case Wakes => s.(token := false, loop := Ticking)
  }

  /** The state after an interleaving of steps from an idle stopwatch; none if
      a step is taken that is not possible where it stands. */
  function After(steps: seq<Step>): Option<Shared> {
    if |steps| == 0 then Some(Shared(false, false, Parked, 0))
    else
      match After(steps[..|steps| - 1])
      case None => None
      case Some(s) => if Enabled(s, steps[|steps| - 1]) then Some(Take(s, steps[|steps| - 1])) else None
  }

  /** The last control action of a run was a Start. */
  predicate LastStarted(steps: seq<Step>) {
    |steps| > 0 && match steps[|steps| - 1]
      case StartLocks => true
      case StopLocks => false
      case _ => LastStarted(steps[..|steps| - 1])
  }

  function CountOf(steps: seq<Step>, step: Step): nat {
    if |steps| == 0 then 0 else CountOf(steps[..|steps| - 1], step) + if steps[|steps| - 1] == step then 1 else 0
  }

  /** The stopwatch runs exactly if it was last started; every Start that has
      released the lock pokes once, or is still to; no more pokes are received than
      were sent; and the loop wakes as often as it parks, or once more. */
  lemma {:induction false} ControlIsCounted(steps: seq<Step>)
    requires After(steps).Some?
    ensures var s := After(steps).value;
      && (s.running <==> LastStarted(steps))
      && s.posting + CountOf(steps, StartPokes) == CountOf(steps, StartLocks)
      && CountOf(steps, Wakes) + CountOf(steps, SkipsPoke) + (if s.token then 1 else 0) <= CountOf(steps, StartPokes)
      && CountOf(steps, Wakes) == CountOf(steps, Parks) + if s.loop == Parked then 0 else 1
  {
    if |steps| > 0 {
      ControlIsCounted(steps[..|steps| - 1]);
    }
  }

  /** A stopwatch that runs while its loop is parked, or about to park, has a
      poke in the channel or a Start on its way to leave one. */
  ghost predicate WakeOwed(s: Shared) {
    s.running && s.loop != Ticking ==> s.token || s.posting > 0
  }

  /** No wakeup is lost, in any interleaving. */
  lemma {:induction false} NoLostWakeup(steps: seq<Step>)
    requires After(steps).Some?
    ensures WakeOwed(After(steps).value)
  {
    if |steps| > 0 {
      NoLostWakeup(steps[..|steps| - 1]);
    }
  }

  /** The steps nobody has to ask for. */
  predicate Internal(step: Step) { step != StartLocks && step != StopLocks }

  /** Internal steps left until a running stopwatch ticks. */
  function ToTicking(s: Shared): nat {
    if s.loop == Ticking then 0 else (if s.loop == Halting then 2 else 1) + s.posting
  }

  /** A stopwatch that should tick and does not is never stuck: some internal
      step can be taken, and whichever is taken brings ticking nearer. */
  lemma RunningGetsTicking(steps: seq<Step>, s: Shared)
    requires After(steps) == Some(s) && s.running && s.loop != Ticking
    ensures exists step :: Internal(step) && Enabled(s, step)
    ensures forall step :: Internal(step) && Enabled(s, step) ==>
      Take(s, step).running && ToTicking(Take(s, step)) < ToTicking(s)
  {
    NoLostWakeup(steps);
    assert Enabled(s, Parks) || Enabled(s, StartPokes) || Enabled(s, Wakes);
  }

  /** Internal steps left until a stopped stopwatch is idle. */
  function ToIdle(s: Shared): nat {
    4 * s.posting + (if s.token then 3 else 0)
    + match s.loop case Ticking => 2 case Halting => 1 case Parked => 0
  }

  /** A stopped stopwatch always comes to rest, parked with no poke left, and at
      rest it does no work. */
  lemma StoppedGetsIdle(s: Shared)
    requires !s.running
    ensures forall step :: Internal(step) && Enabled(s, step) ==>
      !Take(s, step).running && ToIdle(Take(s, step)) < ToIdle(s)
    ensures (forall step :: Internal(step) ==> !Enabled(s, step))
       <==> s.loop == Parked && !s.token && s.posting == 0
  {
    assert !Enabled(s, StartPokes) ==> s.posting == 0;
    assert !Enabled(s, TickHalts) && !Enabled(s, Parks) ==> s.loop == Parked;
    assert !Enabled(s, Wakes) && !Enabled(s, SkipsPoke) && s.loop != Halting ==> !s.token;
  }
}
