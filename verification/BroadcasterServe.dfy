/** When a Serve call ends, and what it leaves behind. */
module Serving {
  import opened Options
  import opened Broadcasting

  /** What makes a Serve call return: hydrate or each fails, its channel is closed
      under it, or its client goes away. */
  predicate Ends<T>(step: Step<T>, i: nat) {
    || (step.Hydrate? && step.session == i && !step.ok)
    || (step.Forward? && step.session == i && !step.ok)
    || (step.SeesClosed? && step.session == i)
    || (step.HangsUp? && step.session == i)
  }

  ghost predicate Ended<T>(steps: seq<Step<T>>, i: nat) { exists m :: 0 <= m < |steps| && Ends(steps[m], i) }

  ghost predicate Hydrated<T>(steps: seq<Step<T>>, i: nat) {
    exists m :: 0 <= m < |steps| && steps[m].Hydrate? && steps[m].session == i
  }

  ghost predicate Left<T>(steps: seq<Step<T>>, i: nat) { exists m :: 0 <= m < |steps| && steps[m] == Leave(i) }

  lemma EndedNext<T>(steps: seq<Step<T>>, i: nat)
    requires |steps| > 0
    ensures var before, last := steps[..|steps| - 1], steps[|steps| - 1];
      && (Ended(steps, i) <==> Ended(before, i) || Ends(last, i))
      && (Hydrated(steps, i) <==> Hydrated(before, i) || (last.Hydrate? && last.session == i))
      && (Left(steps, i) <==> Left(before, i) || last == Leave(i))
  {
    var before, last := steps[..|steps| - 1], steps[|steps| - 1];
    if Ended(before, i) {
      var m :| 0 <= m < |before| && Ends(before[m], i);
      assert Ends(steps[m], i);
    }
    if Hydrated(before, i) {
      var m :| 0 <= m < |before| && before[m].Hydrate? && before[m].session == i;
      assert steps[m].Hydrate? && steps[m].session == i;
    }
    if Left(before, i) {
      var m :| 0 <= m < |before| && before[m] == Leave(i);
      assert steps[m] == Leave(i);
    }
  }

  /** Where a Serve call goes in one step. */
  lemma SessionMoves<T>(s: State<T>, step: Step<T>, i: nat)
    requires Enabled(s, step) && i < |s.sessions|
    ensures |s.sessions| <= |Take(s, step).sessions|
    ensures var v, w := s.sessions[i], Take(s, step).sessions[i];
      && w.chan == v.chan
      && ((v.pc == Leaving || v.pc == Done) ==> (w.pc == Leaving || w.pc == Done) && w.calls == v.calls)
      && ((w.pc == Leaving || w.pc == Done) <==> v.pc == Leaving || v.pc == Done || Ends(step, i))
      && (w.pc == Hydrating <==> v.pc == Hydrating && !(step.Hydrate? && step.session == i))
      && (w.pc == Done <==> v.pc == Done || step == Leave(i))
  {
  }

  lemma SessionBegins<T>(s: State<T>, step: Step<T>, i: nat)
    requires Enabled(s, step) && |s.sessions| <= i < |Take(s, step).sessions|
    ensures step.Enter? && Take(s, step).sessions[i].pc == Hydrating
  {
  }

  /** Only a Serve call that has begun can have taken a step. */
  lemma {:induction false} NotBegun<T>(buffer: int, steps: seq<Step<T>>, i: nat)
    requires After(buffer, steps).Some? && |After(buffer, steps).value.sessions| <= i
    ensures !Ended(steps, i) && !Hydrated(steps, i) && !Left(steps, i)
  {
    if |steps| > 0 {
      EndedNext(steps, i);
      NotBegun(buffer, steps[..|steps| - 1], i);
      hide Ended, Hydrated, Left;
    }
  }

  /** A Serve call is on its way out, or has returned, if and only if one of the
      four things that end it has happened; it is hydrating until it has hydrated,
      and done once it has unsubscribed. */
  lemma {:induction false} ServeEndsIff<T>(buffer: int, steps: seq<Step<T>>, s: State<T>, i: nat)
    requires After(buffer, steps) == Some(s) && i < |s.sessions|
    ensures (s.sessions[i].pc == Leaving || s.sessions[i].pc == Done) <==> Ended(steps, i)
    ensures s.sessions[i].pc == Hydrating <==> !Hydrated(steps, i)
    ensures s.sessions[i].pc == Done <==> Left(steps, i)
  {
    if |steps| > 0 {
      var before, step := steps[..|steps| - 1], steps[|steps| - 1];
      var r := After(buffer, before).value;
      EndedNext(steps, i);
      hide Ended, Hydrated, Left;
      if i < |r.sessions| {
        ServeEndsIff(buffer, before, r, i);
        SessionMoves(r, step, i);
        hide Take, Enabled;
      } else {
        NotBegun(buffer, before, i);
        SessionBegins(r, step, i);
        hide Take, Enabled;
      }
    } else {
      assert false;
    }
  }

  /** And once it has, the call does nothing more to its client: after position m
      it calls neither hydrate nor each again. */
  lemma {:induction false} EndedIsOver<T>(buffer: int, steps: seq<Step<T>>, m: nat, i: nat)
    requires After(buffer, steps).Some? && m < |steps| && Ends(steps[m], i)
    ensures After(buffer, steps[..m + 1]).Some?
    ensures var at, s := After(buffer, steps[..m + 1]).value, After(buffer, steps).value;
      && i < |at.sessions| <= |s.sessions|
      && (s.sessions[i].pc == Leaving || s.sessions[i].pc == Done)
      && s.sessions[i].calls == at.sessions[i].calls && s.sessions[i].chan == at.sessions[i].chan
    decreases |steps|
  {
    var before, step := steps[..|steps| - 1], steps[|steps| - 1];
    var r := After(buffer, before).value;
    if m == |steps| - 1 {
      assert steps[..m + 1] == steps;
      SessionMoves(r, step, i);
    } else {
      assert before[..m + 1] == steps[..m + 1];
      EndedIsOver(buffer, before, m, i);
      SessionMoves(r, step, i);
      hide Take, Enabled, Ends;
    }
  }

  /** A Serve call on its way out is held up by nothing but Publish calls under
      way; when it leaves, its channel, and no other, is a subscriber no more. */
  lemma LeavingCanLeave<T>(buffer: int, steps: seq<Step<T>>, s: State<T>, i: nat)
    requires After(buffer, steps) == Some(s) && i < |s.sessions| && s.sessions[i].pc == Leaving
    ensures Enabled(s, Leave(i)) <==> s.active == map[]
    ensures s.active == map[] ==>
      var t, c := Take(s, Leave(i)), s.sessions[i].chan;
      && c < |t.chans| && t.sessions[i].pc == Done && t.subs == s.subs - {c} && t.chans[c].closed
      && t.chans[c].received == s.chans[c].received && t.chans[c].items == s.chans[c].items
  {
    ServeHydratesThenForwards(buffer, steps, s, i);
    NeverPanics(buffer, steps, s);
  }

  /** What the other steps do to the channels: a subscriber starts empty, one that
      unsubscribes is closed with what it still holds, and a value received is the
      first that was waiting. */
  lemma ChannelSteps<T>(buffer: int, steps: seq<Step<T>>, s: State<T>, step: Step<T>)
    requires After(buffer, steps) == Some(s) && Enabled(s, step)
    ensures step.Subscribe? || step.Enter? ==>
      var t := Take(s, step);
      && t.subs == s.subs + {|s.chans|} && |t.chans| == |s.chans| + 1 && t.chans[..|s.chans|] == s.chans
      && t.chans[|s.chans|].items == [] && t.chans[|s.chans|].born == |s.published|
    ensures step.Unsubscribe? ==>
      var t, c := Take(s, step), step.chan;
      && t.subs == s.subs - {c} && |t.chans| == |s.chans|
      && t.chans[c].closed && t.chans[c].items == s.chans[c].items && t.chans[c].received == s.chans[c].received
      && forall d :: 0 <= d < |s.chans| && d != c ==> t.chans[d] == s.chans[d]
    ensures step.Receive? || step.Forward? ==>
      var t, c := Take(s, step), if step.Receive? then step.chan else s.sessions[step.session].chan;
      && t.subs == s.subs && |t.chans| == |s.chans| > c
      && t.chans[c].received == s.chans[c].received + s.chans[c].items[..1]
      && t.chans[c].items == s.chans[c].items[1..]
      && forall d :: 0 <= d < |s.chans| && d != c ==> t.chans[d] == s.chans[d]
  {
    NeverPanics(buffer, steps, s);
    hide Owned, Offered;
  }
}
