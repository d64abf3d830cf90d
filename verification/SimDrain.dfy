/** What one drain does.  The loop looks for the due item with the smallest
    sequence number until none is left; this amounts to handling, in queue
    order, exactly the items that were due when the drain began. */
module SimDrain {
  import opened SimModel
  import opened SimSafety

  /** The items of q that are due, or those that are not, in order. */
  function Select(q: seq<Delivery>, step: int, due: bool): seq<Delivery> {
    if |q| == 0 then []
    else Select(q[..|q| - 1], step, due) + if Due(q[|q| - 1], step) == due then [q[|q| - 1]] else []
  }

  lemma {:induction false} SelectConcat(a: seq<Delivery>, b: seq<Delivery>, step: int, due: bool)
    ensures Select(a + b, step, due) == Select(a, step, due) + Select(b, step, due)
  {
    if |b| == 0 {
      assert a + b == a;
    } else {
      assert (a + b)[..|a + b| - 1] == a + b[..|b| - 1];
      SelectConcat(a, b[..|b| - 1], step, due);
    }
  }

  lemma {:induction false} SelectNone(q: seq<Delivery>, step: int)
    requires forall k :: 0 <= k < |q| ==> !Due(q[k], step)
    ensures Select(q, step, true) == [] && Select(q, step, false) == q
  {
    if |q| > 0 {
      SelectNone(q[..|q| - 1], step);
      assert q == q[..|q| - 1] + [q[|q| - 1]];
    }
  }

  lemma SelectOne(d: Delivery, step: int)
    requires Due(d, step)
    ensures Select([d], step, true) == [d] && Select([d], step, false) == []
  {
    assert [d][..0] == [];
  }

  /** Handle the items of ds in turn, wherever they came from. */
  function HandleAll(cfg: Config, s: State, ds: seq<Delivery>): State
    requires forall d :: d in ds ==> d.surface < |s.surf|
    decreases |ds|
  {
    if |ds| == 0 then s
    else
      var s1 := s.(handled := s.handled + [Handled(ds[0], s.step)]);
      HandleEffect(cfg, s1, ds[0]);
      HandleAll(cfg, Handle(cfg, s1, ds[0]), ds[1..])
  }

  /** Handling an item neither reads nor reorders the queue. */
  lemma HandleFrame(cfg: Config, s: State, d: Delivery, q: seq<Delivery>)
    requires d.surface < |s.surf|
    ensures Handle(cfg, s.(queue := q), d) == Handle(cfg, s, d).(queue := q + Aftermath(cfg, s, d))
  {
    var r, r' := Handle(cfg, s, d), Handle(cfg, s.(queue := q), d);
    HandleEffect(cfg, s, d);
    HandleEffect(cfg, s.(queue := q), d);
    assert r'.surf == r.surf && r'.trace == r.trace && r'.pos == r.pos;
  }

  lemma SelectMembers(q: seq<Delivery>, step: int, due: bool)
    ensures forall d :: d in Select(q, step, due) <==> d in q && Due(d, step) == due
  {
    if |q| > 0 {
      SelectMembers(q[..|q| - 1], step, due);
      assert forall d :: d in q <==> d in q[..|q| - 1] || d == q[|q| - 1];
    }
  }

  /** The simple specification of a drain: set the items that are due aside,
      keep the others queued, and handle the former in order. */
  function HandleDue(cfg: Config, s: State): State
    requires Addressed(s)
  {
    SelectMembers(s.queue, s.step, true);
    HandleAll(cfg, s.(queue := Select(s.queue, s.step, false)), Select(s.queue, s.step, true))
  }

  lemma SelectThree(a: seq<Delivery>, b: seq<Delivery>, c: seq<Delivery>, step: int, due: bool)
    ensures Select(a + b + c, step, due) == Select(a, step, due) + Select(b, step, due) + Select(c, step, due)
  {
    hide Select;
    SelectConcat(a + b, c, step, due);
    SelectConcat(a, b, step, due);
  }

  /** Taking the first due item out of a queue, and adding items not yet due. */
  lemma SelectStep(q: seq<Delivery>, step: int, idx: nat, added: seq<Delivery>)
    requires idx == FirstDue(q, step) < |q|
    requires forall k :: 0 <= k < |added| ==> !Due(added[k], step)
    ensures var rest := q[..idx] + q[idx + 1..] + added;
      && Select(q, step, true) == [q[idx]] + Select(rest, step, true)
      && Select(rest, step, false) == Select(q, step, false) + added
  {
    var a, d, b := q[..idx], q[idx], q[idx + 1..];
    assert q == a + [d] + b;
    SelectNone(a, step);
    SelectNone(added, step);
    SelectOne(d, step);
    hide Select, FirstDue;
    assert Select(q, step, true) == [] + [d] + Select(b, step, true)
        && Select(a + b + added, step, true) == [] + Select(b, step, true) + [] by {
      SelectThree(a, [d], b, step, true);
      SelectThree(a, b, added, step, true);
    }
    assert Select(q, step, false) == a + [] + Select(b, step, false)
        && Select(a + b + added, step, false) == a + Select(b, step, false) + added by {
      SelectThree(a, [d], b, step, false);
      SelectThree(a, b, added, step, false);
    }
  }

  /** Processing the first due item leaves the specification's outcome as it was. */
  lemma HandleDueStep(cfg: Config, s: State, idx: nat)
    requires Addressed(s) && cfg.faults.reconnectAfter >= 0
    requires idx == FirstDue(s.queue, s.step) < |s.queue|
    ensures Addressed(Process(cfg, s, idx))
    ensures HandleDue(cfg, Process(cfg, s, idx)) == HandleDue(cfg, s)
  {
    var d, s1, r := s.queue[idx], Taken(s, idx), Process(cfg, s, idx);
    var added := Aftermath(cfg, s1, d);
    var waiting := Select(s.queue, s.step, false);
    var ds := Select(r.queue, s.step, true);
    ProcessShrinks(cfg, s, idx);
    HandleEffect(cfg, s1, d);
    SelectStep(s.queue, s.step, idx, added);
    SelectMembers(r.queue, s.step, true);
    HandleFrame(cfg, s1, d, waiting);
    Unfold(cfg, s.(queue := waiting), d, ds);
    hide Handle, HandleAll, Select, Aftermath, Addressed;
    assert s.(queue := waiting).(handled := s.handled + [Handled(d, s.step)]) == s1.(queue := waiting);
    assert r.(queue := waiting + added) == Handle(cfg, s1.(queue := waiting), d);
  }

  /** With reconnects set in the future, a drain handles exactly the items due
      at its start, in queue order, and leaves the others as they were. */
  lemma {:induction false} DrainHandlesDue(cfg: Config, s: State)
    requires Addressed(s) && cfg.faults.reconnectAfter >= 0
    ensures Drain(cfg, s) == HandleDue(cfg, s)
    decreases Work(s.queue)
  {
    var idx := FirstDue(s.queue, s.step);
    if idx == |s.queue| {
      SelectNone(s.queue, s.step);
    } else {
      hide Process, Addressed, HandleDue;
      ProcessShrinks(cfg, s, idx);
      HandleDueStep(cfg, s, idx);
      DrainHandlesDue(cfg, Process(cfg, s, idx));
    }
  }

  lemma Unfold(cfg: Config, s: State, d: Delivery, ds: seq<Delivery>)
    requires d.surface < |s.surf| && forall e :: e in ds ==> e.surface < |s.surf|
    ensures var s1 := Handle(cfg, s.(handled := s.handled + [Handled(d, s.step)]), d);
      |s1.surf| == |s.surf| && HandleAll(cfg, s, [d] + ds) == HandleAll(cfg, s1, ds)
  {
    HandleEffect(cfg, s.(handled := s.handled + [Handled(d, s.step)]), d);
    assert ([d] + ds)[1..] == ds;
  }

  /** On a sorted queue the first due item is the one with the least number. */
  lemma FirstDueIsEarliest(q: seq<Delivery>, step: int, idx: nat)
    requires Sorted(q) && idx < |q|
    ensures idx == FirstDue(q, step) <==>
      Due(q[idx], step) && forall j :: 0 <= j < |q| && Due(q[j], step) ==> q[idx].seqNo <= q[j].seqNo
  {
    var f := FirstDue(q, step);
    if f < |q| && f != idx && Due(q[idx], step) {
      assert q[f].seqNo < q[idx].seqNo;
    }
  }
}
